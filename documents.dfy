/**
  The document store seen from the helper: a search request goes in, a list
  of records comes out, and the `json` payload of the first record is used.
 */
module Documents {
  import opened Json
  import opened Errors

  /** The body of a `documents/get` search. */
  datatype SearchRequest = SearchRequest(
    externalIdType: string,
    value: Value,
    documentType: string,
    includeUnreleased: bool,
    latestOnly: bool)

  /** One record of a search answer, a decoded JSON object. */
  type Record = map<string, Value>

  /** The store's answer to every possible search. */
  type DocumentStore = SearchRequest -> Reply<seq<Record>>

  /** The search for a job's configuration: unreleased documents only outside production. */
  function JobConfigRequest(jobId: string, isProd: bool): (req: SearchRequest)
    ensures req.documentType == "PipelineJob" && req.externalIdType == "JobId"
    ensures req.value == Str(jobId)
    ensures req.includeUnreleased == !isProd && req.latestOnly
  {
    SearchRequest("JobId", Str(jobId), "PipelineJob", !isProd, true)
  }

  /** The search for the shared configuration of a pipeline platform. */
  function SharedConfigRequest(taxonomyTagId: int, isProd: bool): (req: SearchRequest)
    ensures req.documentType == "SharedPipelineJob" && req.externalIdType == "PipelinePlatformId"
    ensures req.value == Int(taxonomyTagId)
    ensures req.includeUnreleased == !isProd && req.latestOnly
  {
    SearchRequest("PipelinePlatformId", Int(taxonomyTagId), "SharedPipelineJob", !isProd, true)
  }

  /** `record.get('json', {})`: the record's payload, an empty mapping when it has none. */
  function RecordJson(record: Record): (payload: Value)
    ensures "json" in record ==> payload == record["json"]
    ensures "json" !in record ==> payload == Obj(map[])
  {
    if "json" in record then record["json"] else Obj(map[])
  }

  /** The payload of the first record, or `notFound` when the search found nothing. */
  function FirstJson(reply: Reply<seq<Record>>, notFound: Error): (r: Result<Value>)
    ensures r.Ok? <==> reply.Success? && reply.body != []
    ensures r.Ok? ==> r.value == RecordJson(reply.body[0])
    ensures reply.HttpFailure? ==> r == Err(DocumentStoreUpstream)
    ensures reply.Success? && reply.body == [] ==> r == Err(notFound)
  {
    match reply
    case HttpFailure => Err(DocumentStoreUpstream)
    case Success(records) => if records == [] then Err(notFound) else Ok(RecordJson(records[0]))
  }

  /** The job's configuration: the payload of the first record the job search finds. */
  function FetchJobConfig(store: DocumentStore, jobId: string, isProd: bool): (r: Result<Value>)
    ensures var reply := store(JobConfigRequest(jobId, isProd));
      && (r.Ok? <==> reply.Success? && reply.body != [])
      && (r.Ok? ==> r.value == RecordJson(reply.body[0]))
      && (reply.Success? && reply.body == [] ==> r == Err(JobConfigNotFound(jobId)))
  {
    FirstJson(store(JobConfigRequest(jobId, isProd)), JobConfigNotFound(jobId))
  }

  /** The platform's shared configuration: the payload of the first record the platform search finds. */
  function FetchSharedPlatformConfig(store: DocumentStore, taxonomyTagId: int, isProd: bool): (r: Result<Value>)
    ensures var reply := store(SharedConfigRequest(taxonomyTagId, isProd));
      && (r.Ok? <==> reply.Success? && reply.body != [])
      && (r.Ok? ==> r.value == RecordJson(reply.body[0]))
      && (reply.Success? && reply.body == [] ==> r == Err(SharedConfigNotFound(taxonomyTagId)))
  {
    FirstJson(store(SharedConfigRequest(taxonomyTagId, isProd)), SharedConfigNotFound(taxonomyTagId))
  }
}
