/**
  The ways a model-name resolution can fail. The helper raises them as
  exceptions; here each is a value, and every operation returns a Result.
 */
module Errors {
  import opened Json

  datatype Error =
    | TaxonomyUpstream                      // the taxonomy service answered with a non-2xx status
    | DocumentStoreUpstream                 // the document store answered with a non-2xx status
    | TagNotFound(platformTag: Value)       // no PIPELINE_PLATFORM tag has this name
    | UnhashableTag(platformTag: Value)     // a list or mapping used as a dictionary key
    | JobConfigNotFound(jobId: string)      // the job-config search returned no record
    | SharedConfigNotFound(taxonomyTagId: int) // the shared-config search returned no record
    | ConfigNotMapping(config: Value)       // a configuration document that is not a mapping
    | MissingTableName(jobId: string)       // no truthy `foundations-table-name` after merging
    | ModelNotString(model: Value)          // a table name that is not a string

  datatype Result<+T> = Ok(value: T) | Err(error: Error)

  /** What a remote service answered: a decoded body, or a failed HTTP status. */
  datatype Reply<+T> = Success(body: T) | HttpFailure
}
