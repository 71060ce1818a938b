# dbt job-id resolution helper, modelled in Dafny

The helper turns a pipeline job id into the dbt selector string the runner
passes to dbt:

    +<model> --vars '{"pool_name": "<pool>", "scala_job_id": "<job id>"}'

To get there it searches a document store for the job's configuration. When that
configuration carries a truthy `platformTag`, it resolves the tag to a taxonomy id.
The taxonomy client fetches the `PIPELINE_PLATFORM` tags once and caches them. It
then fetches the platform's shared configuration and deep-merges the job
configuration over it, so the job wins. Finally it reads `foundations-table-name`.

The model is split into these modules:

- `Json` (json.dfy): decoded JSON values and Python truthiness on them.
- `Errors` (errors.dfy): the failures the model distinguishes, one constructor of
  `Error` each. All but `ModelNotString` stand for an exception the helper raises;
  `ModelNotString` is the model's own (see "## Left out"). Also `Result`, and
  `Reply` (a remote answer or a failed HTTP status).
- `ConfigMerge` (config_merge.dfy): the deep merge. `DeepMerge` is the key-wise
  specification. `DeepMergeWithPriority` is the helper's copy-then-loop procedure,
  proved equal to it. The lemmas state idempotence, absorption, and the path-wise
  facts about which values survive.
- `Taxonomy` (taxonomy.dfy): the tag filter `PlatformTags` and the lookup
  `LookupTag`. The class `TaxonomyClient` has the optional `cache` field and a
  ghost counter of requests sent to the taxonomy service.
- `Documents` (documents.dfy): the two search requests and first-record selection.
  The store is a function from search request to answer.
- `JobResolver` (job_resolver.dfy): the resolution. `ResolveModel` is a function of
  what the services answer, and also returns the requests it sent, in order.
  `FetchModelByJobId` follows the helper's steps with a fresh `TaxonomyClient` and
  is proved equal to it.
- `Invocation` (invocation.dfy): the pool name and the selector string. The
  readers `ParseInvocation` and `ParseVars` exist only in the model. The helper has
  no parser; they show that the unescaped format can still be read back
  unambiguously.

Inputs that come from outside the helper are parameters:
- the taxonomy service's answer (`Reply<seq<TaxonomyTag>>`);
- the document store (`SearchRequest -> Reply<seq<Record>>`);
- the production flag `isProd`.

Nothing in a `Json.Value` can change, so the merge cannot mutate its inputs. What
the model proves about the merge is `DeepMerge(x, x) == x`, together with the
key-wise and path-wise laws.

The merge keeps every key of the job configuration, `platformTag` included, so the
result in `ConfigMerge.SharedJobMergeExample` has three keys.

## Model

| member | source | states |
|---|---|---|
| Json.Truthy | dbt-bigquery/src/dbt/adapters/bigquery/dv01_dbt_helper.py:119 | Python's `not` on a decoded value: the falsy values are exactly None, False, 0, the empty string, the empty list and the empty dict (also used at line 131). |
| ConfigMerge.DeepMerge | dbt-bigquery/src/dbt/adapters/bigquery/dv01_dbt_helper.py:153-166 | The merged keys are the union of both key sets. A key only in the base keeps its base value. A key of the override where the two sides are not both mappings takes the override value exactly, so lists are replaced, not concatenated. |
| ConfigMerge.DeepMergeWithPriority | dbt-bigquery/src/dbt/adapters/bigquery/dv01_dbt_helper.py:153-166 | Copying the base and then visiting the override's keys one at a time, recursing where both sides hold a mapping, yields exactly `DeepMerge(base, override)`. |
| ConfigMerge.MergeRecurses | dbt-bigquery/src/dbt/adapters/bigquery/dv01_dbt_helper.py:157-162 | Where both sides hold a mapping under a key, the merged value there is the merge of those two mappings. |
| ConfigMerge.MergeSelf | dbt-bigquery/src/dbt/adapters/bigquery/dv01_dbt_helper.py:153-166 | Merging a configuration with itself returns it unchanged, at every depth. |
| ConfigMerge.MergeAbsorbs | dbt-bigquery/src/dbt/adapters/bigquery/dv01_dbt_helper.py:153-166 | Merging the same override a second time over a merge result changes nothing. |
| ConfigMerge.FlatOverrideIsUpdate | dbt-bigquery/src/dbt/adapters/bigquery/dv01_dbt_helper.py:163-164 | An override with no nested mappings acts as a plain key-wise update (`dict.update`) of the base. |
| ConfigMerge.OverrideLeafWins | dbt-bigquery/src/dbt/adapters/bigquery/dv01_dbt_helper.py:156-164 | Every non-mapping value the override holds at a nested path is the value at that path in the merge. |
| ConfigMerge.UntouchedBaseSurvives | dbt-bigquery/src/dbt/adapters/bigquery/dv01_dbt_helper.py:154-162 | A base value at a path the override never reaches, or reaches only through mappings, is unchanged in the merge. |
| ConfigMerge.SharedJobMergeExample | dbt-bigquery/src/dbt/adapters/bigquery/dv01_dbt_helper.py:127-128 | For a job configuration with a table name and a tag, merged over a shared configuration with a table name and a retry count, the job's table name and tag win and the shared retry count is kept (three keys in all). |
| Taxonomy.PlatformTags | dbt-bigquery/src/dbt/adapters/bigquery/dv01_dbt_helper.py:57-62 | The dictionary's keys are exactly the names of the tags whose category is `PIPELINE_PLATFORM`. |
| Taxonomy.PlatformTagsLastWins | dbt-bigquery/src/dbt/adapters/bigquery/dv01_dbt_helper.py:58-62 | A platform tag's name maps to its id when no later platform tag has the same name (a later duplicate overwrites an earlier one). |
| Taxonomy.PlatformTagsFromTags | dbt-bigquery/src/dbt/adapters/bigquery/dv01_dbt_helper.py:58-62 | Every entry of the dictionary comes from some platform tag with that name and id. |
| Taxonomy.LookupTag | dbt-bigquery/src/dbt/adapters/bigquery/dv01_dbt_helper.py:74-79 | Succeeds exactly for a string tag in the dictionary, with its id. Otherwise it fails: not-found for other tags, unhashable for lists and mappings. |
| Taxonomy.FreshLookup | dbt-bigquery/src/dbt/adapters/bigquery/dv01_dbt_helper.py:71-79 | A client with an empty cache fails with an upstream error when the service fails, and otherwise looks the tag up in the filtered tags. |
| Taxonomy.TaxonomyClient.constructor | dbt-bigquery/src/dbt/adapters/bigquery/dv01_dbt_helper.py:44 | A new client starts with an empty cache and has sent no request. |
| Taxonomy.TaxonomyClient.FetchTaxonomyTags | dbt-bigquery/src/dbt/adapters/bigquery/dv01_dbt_helper.py:46-62 | Fails exactly when the service answers with a failed status. Otherwise it yields exactly `PlatformTags` of the service's answer: each platform tag's name mapped to its id, the last one winning. |
| Taxonomy.TaxonomyClient.GetTaxonomyTagId | dbt-bigquery/src/dbt/adapters/bigquery/dv01_dbt_helper.py:64-79 | Sends a request only while the cache is empty, and once the cache is set it is reused unchanged. With a working service the client sends at most one request in its life (kept in `Valid`). The answer is the fresh-lookup answer, so a missing tag fails. |
| Documents.JobConfigRequest | dbt-bigquery/src/dbt/adapters/bigquery/dv01_dbt_helper.py:137-142 | Searches `PipelineJob` documents by `JobId`, latest only, with unreleased documents only outside production. |
| Documents.SharedConfigRequest | dbt-bigquery/src/dbt/adapters/bigquery/dv01_dbt_helper.py:169-174 | Searches `SharedPipelineJob` documents by `PipelinePlatformId`, latest only, with unreleased documents only outside production. |
| Documents.RecordJson | dbt-bigquery/src/dbt/adapters/bigquery/dv01_dbt_helper.py:151 | A record's `json` field, or an empty mapping when the record has none (also line 183). |
| Documents.FirstJson | dbt-bigquery/src/dbt/adapters/bigquery/dv01_dbt_helper.py:147-151 | Succeeds exactly when the answer has records, with the first record's `json` (default `{}`). An empty answer gives the not-found error, and a failed status gives an upstream error. |
| Documents.FetchJobConfig | dbt-bigquery/src/dbt/adapters/bigquery/dv01_dbt_helper.py:136-151 | The job configuration is the first found record's payload. No record found is `JobConfigNotFound`. |
| Documents.FetchSharedPlatformConfig | dbt-bigquery/src/dbt/adapters/bigquery/dv01_dbt_helper.py:168-183 | The shared configuration is the first found record's payload. No record found is `SharedConfigNotFound`. |
| JobResolver.ExtractModel | dbt-bigquery/src/dbt/adapters/bigquery/dv01_dbt_helper.py:130-134 | Succeeds exactly when `foundations-table-name` is present and truthy, with that value. Otherwise it is the missing-table-name error. |
| JobResolver.HasPlatformTag | dbt-bigquery/src/dbt/adapters/bigquery/dv01_dbt_helper.py:117-119 | The branch test. A job configuration without a `platformTag` key, or with an empty string there, takes the job-config-only branch. A non-empty string tag takes the taxonomy branch. |
| JobResolver.ResolveModel | dbt-bigquery/src/dbt/adapters/bigquery/dv01_dbt_helper.py:106-134 | The job search is always the first request, and at most three requests are sent. The taxonomy is asked exactly when the job configuration is a mapping with a truthy `platformTag`. A resolved model name is always truthy. |
| JobResolver.FetchModelByJobId | dbt-bigquery/src/dbt/adapters/bigquery/dv01_dbt_helper.py:116-134 | The helper's steps, with a new taxonomy client and the merge loop, give exactly the outcome of `ResolveModel`. |
| JobResolver.NoPlatformTagUsesJobConfig | dbt-bigquery/src/dbt/adapters/bigquery/dv01_dbt_helper.py:117-121 | With no truthy `platformTag`, the model comes from the job configuration alone, and the job search is the only request. |
| JobResolver.NoPlatformTagIgnoresOtherServices | dbt-bigquery/src/dbt/adapters/bigquery/dv01_dbt_helper.py:117-121 | With no truthy `platformTag`, the outcome does not depend on the taxonomy service or on any other search. |
| JobResolver.PlatformTagMergesSharedConfig | dbt-bigquery/src/dbt/adapters/bigquery/dv01_dbt_helper.py:122-128 | With a truthy tag that resolves, the model is read from `DeepMerge(shared, job)`. The requests are the job search, the taxonomy fetch and the platform search, in that order. |
| JobResolver.NoJobRecordIsNotFound | dbt-bigquery/src/dbt/adapters/bigquery/dv01_dbt_helper.py:148-149 | A job search with no records fails with `JobConfigNotFound`. |
| JobResolver.NoSharedRecordIsNotFound | dbt-bigquery/src/dbt/adapters/bigquery/dv01_dbt_helper.py:180-181 | A platform search with no records fails with `SharedConfigNotFound`. |
| JobResolver.TagLookupFailureFails | dbt-bigquery/src/dbt/adapters/bigquery/dv01_dbt_helper.py:122-124 | A truthy tag the taxonomy cannot resolve fails the resolution with the lookup's own error: a missing tag (line 77), an unhashable tag, or an upstream failure. Only the job search and the taxonomy fetch are sent. |
| JobResolver.JobTableNameWins | dbt-bigquery/src/dbt/adapters/bigquery/dv01_dbt_helper.py:127-132 | A truthy, non-mapping table name in the job configuration is the model of any successful resolution. |
| JobResolver.TaggedJobExample | dbt-bigquery/src/dbt/adapters/bigquery/dv01_dbt_helper.py:116-134 | For a job tagged `spark`, the model is `jobs.spark_x`: the shared table name is overridden. The requests are the job search, the taxonomy fetch, and the shared search for id 7, which is what `spark` resolves to. |
| JobResolver.UntaggedJobExample | dbt-bigquery/src/dbt/adapters/bigquery/dv01_dbt_helper.py:116-121 | For a job without a tag, the model is `jobs.raw` and the job search is the only request. |
| Invocation.PoolName | dbt-bigquery/src/dbt/adapters/bigquery/dv01_dbt_helper.py:102 | The pool name is as long as the job id and contains no `/`. It agrees with the job id at every position, except that `/` becomes `_`. |
| Invocation.PoolNameIdempotent | dbt-bigquery/src/dbt/adapters/bigquery/dv01_dbt_helper.py:102 | Replacing slashes a second time changes nothing. |
| Invocation.PoolNameConcat | dbt-bigquery/src/dbt/adapters/bigquery/dv01_dbt_helper.py:102 | Replacing slashes in a concatenation gives the concatenation of the replaced parts. |
| Invocation.PoolNameWithoutSlash | dbt-bigquery/src/dbt/adapters/bigquery/dv01_dbt_helper.py:102 | A job id without `/` is its own pool name. |
| Invocation.PoolNameOfSlashJoin | dbt-bigquery/src/dbt/adapters/bigquery/dv01_dbt_helper.py:102 | Two slash-free parts joined by `/` become the same parts joined by `_`. |
| Invocation.VarsPart | dbt-bigquery/src/dbt/adapters/bigquery/dv01_dbt_helper.py:104 | The `--vars` argument starts with a space, and its length is a fixed amount plus twice the job id's length. |
| Invocation.FormatInvocation | dbt-bigquery/src/dbt/adapters/bigquery/dv01_dbt_helper.py:104 | The selector string is a `+`, then the model name verbatim, then the `--vars` argument for the job id, with nothing escaped or inserted in between. |
| Invocation.VarsPartJobId | dbt-bigquery/src/dbt/adapters/bigquery/dv01_dbt_helper.py:104 | The job id appears verbatim just before the closing `"}'`. |
| Invocation.ParseVarsRoundTrip | dbt-bigquery/src/dbt/adapters/bigquery/dv01_dbt_helper.py:104 | Any job id, with quotes, spaces or slashes, can be read back from its `--vars` argument, because the pool name is exactly as long as the job id. |
| Invocation.ParseVarsIsSound | dbt-bigquery/src/dbt/adapters/bigquery/dv01_dbt_helper.py:104 | Whatever the `--vars` reader accepts is exactly the `--vars` argument of the job id it returns. |
| Invocation.ParseFormatRoundTrip | dbt-bigquery/src/dbt/adapters/bigquery/dv01_dbt_helper.py:104 | For a model name without spaces, the model name and any job id can be read back from the selector string. |
| Invocation.ParseIsSound | dbt-bigquery/src/dbt/adapters/bigquery/dv01_dbt_helper.py:104 | Whatever the parser accepts is exactly the selector string of the model name and job id it returns. |
| Invocation.SelectorExample | dbt-bigquery/src/dbt/adapters/bigquery/dv01_dbt_helper.py:102-104 | For `analytics.table1` and `teamA/pipeline1`, the pool is `teamA_pipeline1` and the string is the literal concatenation. |
| Invocation.FetchModelAndPoolName | dbt-bigquery/src/dbt/adapters/bigquery/dv01_dbt_helper.py:96-104 | Succeeds exactly when the resolution yields a string model name. The answer is then `+<model> --vars '{"pool_name": "<pool>", "scala_job_id": "<job id>"}'` with no escaping. A failed resolution's error is passed on unchanged. |

## Left out

- The secret-store client (lines 6-25) and the API-key fallbacks in both constructors: they are calls into the Google Secret Manager library and the environment, which are not part of this model.
- HTTP requests, headers, `raise_for_status` and JSON decoding: each remote answer is an input, either a decoded body or a failed status (`Reply`). A body that is not a list of records is not modelled.
- Environment reads: `isProd` is a parameter rather than a comparison of `GCP_TARGET_PROJECT` with the production project.
- The warning printed when a job has no platform tag (line 120): it is a diagnostic with no effect on the result.
- Dictionary insertion order and the order in which the merge loop visits keys: the keys are distinct, so the result does not depend on the order.
- Aliasing: the helper's merge result shares sub-dictionaries with its inputs. Here values cannot be shared or mutated, so a later mutation through the result is not modelled.
- JSON floating-point numbers: they are not among the modelled values.
- Taxonomy.TaxonomyTag: every tag has a string name and an integer id. A platform tag without a `name` or `id` key (a `KeyError` at line 59) is not modelled. Nor is a tag whose name is a number or whose id is null, so a numeric `platformTag` never matches any tag.
- Taxonomy.TaxonomyClient: the service's answer is fixed per client, so a client whose first fetch failed fails the same way on every retry.
- Invocation.FetchModelAndPoolName: a truthy table name that is not a string (a number, a list, a mapping) is reported as `ModelNotString`. The helper would instead paste Python's `str()` of it into the selector string.
