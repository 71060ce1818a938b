/**
  Resolving a job id to its model (table) name: fetch the job configuration;
  when it names a truthy platform tag, resolve the tag with a new taxonomy
  client, fetch the platform's shared configuration and merge the job
  configuration over it; then read `foundations-table-name`.
 */
module JobResolver {
  import opened Json
  import opened Errors
  import opened ConfigMerge
  import opened Taxonomy
  import opened Documents

  const PlatformTagKey: string := "platformTag"
  const TableNameKey: string := "foundations-table-name"

  /** A request the resolution sends to a remote service. */
  datatype Call = DocumentSearch(request: SearchRequest) | TaxonomyFetch

  /** The outcome of a resolution together with the requests it sent, in order. */
  datatype Resolution = Resolution(model: Result<Value>, calls: seq<Call>)

  /** The table name of a resolved configuration; a missing or falsy one is an error. */
  function ExtractModel(config: map<string, Value>, jobId: string): (r: Result<Value>)
    ensures r.Ok? <==> Truthy(Get(config, TableNameKey))
    ensures r.Ok? ==> TableNameKey in config && r.value == config[TableNameKey]
    ensures r.Err? ==> r.error == MissingTableName(jobId)
  {
    var model := Get(config, TableNameKey);
    if !Truthy(model) then Err(MissingTableName(jobId)) else Ok(model)
  }

  /** Whether a fetched job configuration sends the resolution through the taxonomy. */
  predicate HasPlatformTag(job: Value)
    ensures HasPlatformTag(job) ==> job.Obj? && PlatformTagKey in job.fields
    ensures job.Obj? && PlatformTagKey in job.fields && job.fields[PlatformTagKey] == Str("") ==> !HasPlatformTag(job)
    ensures (job.Obj? && PlatformTagKey in job.fields && job.fields[PlatformTagKey].Str? &&
             job.fields[PlatformTagKey].s != "") ==> HasPlatformTag(job)
  {
    job.Obj? && Truthy(Get(job.fields, PlatformTagKey))
  }

  /** The whole resolution, as a function of what the two services answer. */
  function ResolveModel(store: DocumentStore, taxonomy: Reply<seq<TaxonomyTag>>, jobId: string, isProd: bool)
    : (res: Resolution)
    ensures 1 <= |res.calls| <= 3
    ensures res.calls[0] == DocumentSearch(JobConfigRequest(jobId, isProd))
    ensures TaxonomyFetch in res.calls <==>
      (var job := FetchJobConfig(store, jobId, isProd); job.Ok? && HasPlatformTag(job.value))
    ensures res.model.Ok? ==> Truthy(res.model.value)
  {
    var jobCalls := [DocumentSearch(JobConfigRequest(jobId, isProd))];
    match FetchJobConfig(store, jobId, isProd)
    case Err(e) => Resolution(Err(e), jobCalls)
    case Ok(job) =>
      if !job.Obj? then Resolution(Err(ConfigNotMapping(job)), jobCalls)
      else if !HasPlatformTag(job) then Resolution(ExtractModel(job.fields, jobId), jobCalls)
      else
        var tagCalls := jobCalls + [TaxonomyFetch];
        match FreshLookup(taxonomy, Get(job.fields, PlatformTagKey))
        case Err(e) => Resolution(Err(e), tagCalls)
        case Ok(id) =>
          var sharedCalls := tagCalls + [DocumentSearch(SharedConfigRequest(id, isProd))];
          match FetchSharedPlatformConfig(store, id, isProd)
          case Err(e) => Resolution(Err(e), sharedCalls)
          case Ok(shared) =>
            if !shared.Obj? then Resolution(Err(ConfigNotMapping(shared)), sharedCalls)
            else Resolution(ExtractModel(DeepMerge(shared.fields, job.fields), jobId), sharedCalls)
  }

  /**
    The helper's own steps: a new taxonomy client is made for every resolution
    that needs one, so its cache never outlives the call.
   */
  method FetchModelByJobId(store: DocumentStore, taxonomy: Reply<seq<TaxonomyTag>>, jobId: string, isProd: bool)
    returns (model: Result<Value>)
    ensures model == ResolveModel(store, taxonomy, jobId, isProd).model
  {
    var jobConfig := FetchJobConfig(store, jobId, isProd);
    if jobConfig.Err? {
      return Err(jobConfig.error);
    }
    var job := jobConfig.value;
    if !job.Obj? {
      return Err(ConfigNotMapping(job));
    }
    var platformTag := Get(job.fields, PlatformTagKey);
    var merged: map<string, Value>;
    if !Truthy(platformTag) {
      merged := job.fields;
    } else {
      var client := new TaxonomyClient(taxonomy);
      var taxonomyTagId := client.GetTaxonomyTagId(platformTag);
      if taxonomyTagId.Err? {
        return Err(taxonomyTagId.error);
      }
      var sharedConfig := FetchSharedPlatformConfig(store, taxonomyTagId.value, isProd);
      if sharedConfig.Err? {
        return Err(sharedConfig.error);
      }
      var shared := sharedConfig.value;
      if !shared.Obj? {
        return Err(ConfigNotMapping(shared));
      }
      merged := DeepMergeWithPriority(shared.fields, job.fields);
    }
    model := ExtractModel(merged, jobId);
  }

  /** Without a truthy platform tag the job configuration alone decides, and nothing else is asked. */
  lemma NoPlatformTagUsesJobConfig(store: DocumentStore, taxonomy: Reply<seq<TaxonomyTag>>,
                                   jobId: string, isProd: bool)
    requires var job := FetchJobConfig(store, jobId, isProd); job.Ok? && job.value.Obj? && !HasPlatformTag(job.value)
    ensures var res := ResolveModel(store, taxonomy, jobId, isProd);
      res.model == ExtractModel(FetchJobConfig(store, jobId, isProd).value.fields, jobId) &&
      res.calls == [DocumentSearch(JobConfigRequest(jobId, isProd))]
  {
  }

  /**
    Without a truthy platform tag the outcome does not depend on the taxonomy
    service or on any search other than the job's.
   */
  lemma NoPlatformTagIgnoresOtherServices(store: DocumentStore, store': DocumentStore,
                                          taxonomy: Reply<seq<TaxonomyTag>>, taxonomy': Reply<seq<TaxonomyTag>>,
                                          jobId: string, isProd: bool)
    requires store(JobConfigRequest(jobId, isProd)) == store'(JobConfigRequest(jobId, isProd))
    requires var job := FetchJobConfig(store, jobId, isProd); !(job.Ok? && HasPlatformTag(job.value))
    ensures ResolveModel(store, taxonomy, jobId, isProd) == ResolveModel(store', taxonomy', jobId, isProd)
  {
  }

  /** With a truthy platform tag, the job configuration is merged over the platform's shared configuration. */
  lemma PlatformTagMergesSharedConfig(store: DocumentStore, taxonomy: Reply<seq<TaxonomyTag>>,
                                      jobId: string, isProd: bool, id: int)
    requires var job := FetchJobConfig(store, jobId, isProd); job.Ok? && HasPlatformTag(job.value)
    requires FreshLookup(taxonomy, Get(FetchJobConfig(store, jobId, isProd).value.fields, PlatformTagKey)) == Ok(id)
    requires var shared := FetchSharedPlatformConfig(store, id, isProd); shared.Ok? && shared.value.Obj?
    ensures var res := ResolveModel(store, taxonomy, jobId, isProd);
      res.model == ExtractModel(DeepMerge(FetchSharedPlatformConfig(store, id, isProd).value.fields,
                                          FetchJobConfig(store, jobId, isProd).value.fields), jobId) &&
      res.calls == [DocumentSearch(JobConfigRequest(jobId, isProd)), TaxonomyFetch,
                    DocumentSearch(SharedConfigRequest(id, isProd))]
  {
  }

  /** A job search that finds no record fails the resolution. */
  lemma NoJobRecordIsNotFound(store: DocumentStore, taxonomy: Reply<seq<TaxonomyTag>>, jobId: string, isProd: bool)
    requires store(JobConfigRequest(jobId, isProd)) == Success([])
    ensures ResolveModel(store, taxonomy, jobId, isProd).model == Err(JobConfigNotFound(jobId))
  {
  }

  /** A shared-config search that finds no record fails the resolution. */
  lemma NoSharedRecordIsNotFound(store: DocumentStore, taxonomy: Reply<seq<TaxonomyTag>>,
                                 jobId: string, isProd: bool, id: int)
    requires var job := FetchJobConfig(store, jobId, isProd); job.Ok? && HasPlatformTag(job.value)
    requires FreshLookup(taxonomy, Get(FetchJobConfig(store, jobId, isProd).value.fields, PlatformTagKey)) == Ok(id)
    requires store(SharedConfigRequest(id, isProd)) == Success([])
    ensures ResolveModel(store, taxonomy, jobId, isProd).model == Err(SharedConfigNotFound(id))
  {
  }

  /** A truthy platform tag the taxonomy cannot resolve fails the resolution with the lookup's error. */
  lemma TagLookupFailureFails(store: DocumentStore, taxonomy: Reply<seq<TaxonomyTag>>,
                              jobId: string, isProd: bool, e: Error)
    requires var job := FetchJobConfig(store, jobId, isProd); job.Ok? && HasPlatformTag(job.value)
    requires FreshLookup(taxonomy, Get(FetchJobConfig(store, jobId, isProd).value.fields, PlatformTagKey)) == Err(e)
    ensures var res := ResolveModel(store, taxonomy, jobId, isProd);
      res.model == Err(e) && res.calls == [DocumentSearch(JobConfigRequest(jobId, isProd)), TaxonomyFetch]
  {
  }

  /**
    A table name the job configuration sets to a non-mapping truthy value is
    the model name whenever the resolution succeeds: the job configuration wins.
   */
  lemma JobTableNameWins(store: DocumentStore, taxonomy: Reply<seq<TaxonomyTag>>, jobId: string, isProd: bool)
    requires var job := FetchJobConfig(store, jobId, isProd);
      job.Ok? && job.value.Obj? && Truthy(Get(job.value.fields, TableNameKey)) &&
      !Get(job.value.fields, TableNameKey).Obj?
    requires ResolveModel(store, taxonomy, jobId, isProd).model.Ok?
    ensures ResolveModel(store, taxonomy, jobId, isProd).model.value ==
            FetchJobConfig(store, jobId, isProd).value.fields[TableNameKey]
  {
  }

  /**
    A job tagged `spark`, whose platform's shared configuration sets its own
    table name and a retry count: the job's table name is the model.
   */
  lemma TaggedJobExample(store: DocumentStore, taxonomy: Reply<seq<TaxonomyTag>>, jobId: string, isProd: bool)
    requires store(JobConfigRequest(jobId, isProd)) ==
      Success([map["json" := Obj(map[PlatformTagKey := Str("spark"), TableNameKey := Str("jobs.spark_x")])]])
    requires taxonomy == Success([TaxonomyTag("spark", 7, Str(PipelinePlatform))])
    requires store(SharedConfigRequest(7, isProd)) ==
      Success([map["json" := Obj(map[TableNameKey := Str("shared.default"), "retries" := Int(3)])]])
    ensures var res := ResolveModel(store, taxonomy, jobId, isProd);
      res.model == Ok(Str("jobs.spark_x")) &&
      res.calls == [DocumentSearch(JobConfigRequest(jobId, isProd)), TaxonomyFetch,
                    DocumentSearch(SharedConfigRequest(7, isProd))]
  {
    var tags := [TaxonomyTag("spark", 7, Str(PipelinePlatform))];
    PlatformTagsLastWins(tags, 0);
  }

  /** A job without a platform tag: its own table name is the model, and only its own search is sent. */
  lemma UntaggedJobExample(store: DocumentStore, taxonomy: Reply<seq<TaxonomyTag>>, jobId: string, isProd: bool)
    requires store(JobConfigRequest(jobId, isProd)) ==
      Success([map["json" := Obj(map[TableNameKey := Str("jobs.raw")])]])
    ensures ResolveModel(store, taxonomy, jobId, isProd) ==
      Resolution(Ok(Str("jobs.raw")), [DocumentSearch(JobConfigRequest(jobId, isProd))])
  {
  }
}
