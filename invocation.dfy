/**
  The dbt selector string handed back to the runner:
    +<model> --vars '{"pool_name": "<pool>", "scala_job_id": "<job id>"}'
  where the pool name is the job id with every '/' turned into '_'. The parts
  are pasted in as they are, without any quoting or escaping.
 */
module Invocation {
  import opened Wrappers
  import opened Json
  import opened Errors
  import opened Taxonomy
  import opened Documents
  import opened JobResolver

  const VarsOpen: string := " --vars '{\"pool_name\": \""
  const VarsMiddle: string := "\", \"scala_job_id\": \""
  const VarsClose: string := "\"}'"

  /** `jobId.replace("/", "_")`. */
  function PoolName(jobId: string): (pool: string)
    ensures |pool| == |jobId|
    ensures forall i :: 0 <= i < |jobId| ==> pool[i] == if jobId[i] == '/' then '_' else jobId[i]
    ensures '/' !in pool
  {
    if jobId == [] then []
    else [if jobId[0] == '/' then '_' else jobId[0]] + PoolName(jobId[1..])
  }

  /** Turning slashes into underscores a second time changes nothing. */
  lemma PoolNameIdempotent(jobId: string)
    ensures PoolName(PoolName(jobId)) == PoolName(jobId)
  {
  }

  /** Everything after the model name: the `--vars` argument for the job. */
  function VarsPart(jobId: string): (part: string)
    ensures |part| == |VarsOpen| + |VarsMiddle| + |VarsClose| + 2 * |jobId|
    ensures part[0] == ' '
  {
    VarsOpen + PoolName(jobId) + VarsMiddle + jobId + VarsClose
  }

  /** The job id sits right before the closing quote, brace and apostrophe. */
  lemma VarsPartJobId(jobId: string)
    ensures var part := VarsPart(jobId);
      part[|part| - |VarsClose| - |jobId| .. |part| - |VarsClose|] == jobId
  {
    var part := VarsPart(jobId);
    var front := VarsOpen + PoolName(jobId) + VarsMiddle;
    assert part == front + jobId + VarsClose;
  }

  /** The f-string of the selector: a '+', the model name, then the `--vars` argument, pasted as they are. */
  function FormatInvocation(model: string, jobId: string): (out: string)
    ensures |out| == 1 + |model| + |VarsPart(jobId)|
    ensures out[0] == '+'
    ensures out[1..1 + |model|] == model
    ensures out[1 + |model|..] == VarsPart(jobId)
  {
    "+" + model + VarsPart(jobId)
  }

  /** The index of the first space in `s`, or |s| when there is none. */
  function FirstSpace(s: string): (i: nat)
    ensures i <= |s|
    ensures forall j :: 0 <= j < i ==> s[j] != ' '
    ensures i < |s| ==> s[i] == ' '
  {
    if s == [] || s[0] == ' ' then 0 else 1 + FirstSpace(s[1..])
  }

  /** The length of the job id a `--vars` argument of this length would carry. */
  function JobIdLength(tail: string): Option<nat>
  {
    var fixed := |VarsOpen| + |VarsMiddle| + |VarsClose|;
    if |tail| < fixed || (|tail| - fixed) % 2 != 0 then None else Some((|tail| - fixed) / 2)
  }

  /** Reads the job id back out of a `--vars` argument. */
  function ParseVars(tail: string): Option<string>
  {
    match JobIdLength(tail)
    case None => None
    case Some(n) =>
      var jobId := tail[|tail| - |VarsClose| - n .. |tail| - |VarsClose|];
      if tail == VarsPart(jobId) then Some(jobId) else None
  }

  /**
    Reads a model name and a job id back out of a selector string: the model
    runs up to the first space, and the job id's length follows from the rest,
    because the pool name is exactly as long as the job id.
   */
  function ParseInvocation(out: string): Option<(string, string)>
  {
    if out == [] || out[0] != '+' then None
    else
      var rest := out[1..];
      var i := FirstSpace(rest);
      match ParseVars(rest[i..])
      case None => None
      case Some(jobId) => Some((rest[..i], jobId))
  }

  /** Any job id can be read back from its `--vars` argument. */
  lemma ParseVarsRoundTrip(jobId: string)
    ensures ParseVars(VarsPart(jobId)) == Some(jobId)
  {
    var tail := VarsPart(jobId);
    assert JobIdLength(tail) == Some(|jobId|);
    VarsPartJobId(jobId);
  }

  /** A model name without spaces and any job id can be read back from the selector string. */
  lemma {:induction false} ParseFormatRoundTrip(model: string, jobId: string)
    requires ' ' !in model
    ensures ParseInvocation(FormatInvocation(model, jobId)) == Some((model, jobId))
  {
    var out := FormatInvocation(model, jobId);
    var tail := VarsPart(jobId);
    var rest := out[1..];
    assert rest[..|model|] == model;
    assert rest[|model|..] == tail;
    assert rest == model + tail;
    FirstSpaceAfter(model, tail);
    ParseVarsRoundTrip(jobId);
  }

  /** The first space of `model + tail` is the one that starts `tail`. */
  lemma {:induction false} FirstSpaceAfter(model: string, tail: string)
    requires ' ' !in model
    requires tail != [] && tail[0] == ' '
    ensures FirstSpace(model + tail) == |model|
    decreases |model|
  {
    if model != [] {
      assert (model + tail)[1..] == model[1..] + tail;
      FirstSpaceAfter(model[1..], tail);
    }
  }

  /** Whatever `ParseVars` accepts is the `--vars` argument of the job id it returns. */
  lemma ParseVarsIsSound(tail: string)
    requires ParseVars(tail).Some?
    ensures tail == VarsPart(ParseVars(tail).value)
  {
  }

  /** Whatever the parser accepts is the selector string of what it returns. */
  lemma {:induction false} ParseIsSound(out: string, model: string, jobId: string)
    requires ParseInvocation(out) == Some((model, jobId))
    ensures out == FormatInvocation(model, jobId)
  {
    var rest := out[1..];
    var i := FirstSpace(rest);
    ParseVarsIsSound(rest[i..]);
    Reassemble(out, i);
    FormatShape(model, jobId);
  }

  /** A string that starts with a character splits at any index of the rest. */
  lemma Reassemble(out: string, i: nat)
    requires out != [] && i <= |out| - 1
    ensures out == [out[0]] + (out[1..][..i] + out[1..][i..])
  {
  }

  /** The selector string is a '+' followed by the model name and the `--vars` argument. */
  lemma FormatShape(model: string, jobId: string)
    ensures FormatInvocation(model, jobId) == ['+'] + (model + VarsPart(jobId))
  {
  }

  /** Replacing slashes distributes over concatenation. */
  lemma {:induction false} PoolNameConcat(a: string, b: string)
    ensures PoolName(a + b) == PoolName(a) + PoolName(b)
    decreases |a|
  {
    if a != [] {
      assert (a + b)[1..] == a[1..] + b;
      PoolNameConcat(a[1..], b);
    }
  }

  /** A job id without slashes is its own pool name. */
  lemma PoolNameWithoutSlash(jobId: string)
    requires '/' !in jobId
    ensures PoolName(jobId) == jobId
  {
  }

  /** The pool name of two slash-free parts joined by a slash joins them with an underscore. */
  lemma PoolNameOfSlashJoin(a: string, b: string)
    requires '/' !in a && '/' !in b
    ensures PoolName(a + "/" + b) == a + "_" + b
  {
    PoolNameConcat(a + "/", b);
    PoolNameConcat(a, "/");
    PoolNameWithoutSlash(a);
    PoolNameWithoutSlash(b);
    assert PoolName("/") == "_";
  }

  /** The selector string for the job id `teamA/pipeline1`, piece by piece. */
  lemma SelectorExample(jobId: string)
    requires jobId == "teamA" + "/" + "pipeline1"
    ensures FormatInvocation("analytics.table1", jobId) ==
      "+" + "analytics.table1" + " --vars '{\"pool_name\": \"" + "teamA_pipeline1" +
      "\", \"scala_job_id\": \"" + "teamA/pipeline1" + "\"}'"
  {
    PoolNameOfSlashJoin("teamA", "pipeline1");
  }

  /**
    The helper's entry point: resolve the model name, then format the selector
    string for the job.
   */
  function FetchModelAndPoolName(store: DocumentStore, taxonomy: Reply<seq<TaxonomyTag>>, jobId: string, isProd: bool)
    : (r: Result<string>)
    ensures var model := ResolveModel(store, taxonomy, jobId, isProd).model;
      r.Ok? <==> model.Ok? && model.value.Str?
    ensures var model := ResolveModel(store, taxonomy, jobId, isProd).model;
      r.Ok? ==> model.value.s != "" && r.value == FormatInvocation(model.value.s, jobId)
    ensures var model := ResolveModel(store, taxonomy, jobId, isProd).model;
      model.Err? ==> r == Err(model.error)
    ensures var model := ResolveModel(store, taxonomy, jobId, isProd).model;
      model.Ok? && !model.value.Str? ==> r == Err(ModelNotString(model.value))
  {
    match ResolveModel(store, taxonomy, jobId, isProd).model
    case Err(e) => Err(e)
    case Ok(model) =>
      if model.Str? then Ok(FormatInvocation(model.s, jobId)) else Err(ModelNotString(model))
  }
}
