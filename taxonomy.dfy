/**
  The taxonomy resolver: the taxonomy service lists every tag; the resolver
  keeps the PIPELINE_PLATFORM ones as a name -> id mapping, caches that mapping
  in the client on the first lookup, and answers later lookups from the cache.
 */
module Taxonomy {
  import opened Wrappers
  import opened Json
  import opened Errors

  const PipelinePlatform: string := "PIPELINE_PLATFORM"

  /** One record of the taxonomy service's answer; a missing category reads as null. */
  datatype TaxonomyTag = TaxonomyTag(name: string, id: int, category: Value)

  predicate IsPlatformTag(tag: TaxonomyTag)
  {
    tag.category == Str(PipelinePlatform)
  }

  /** The names of the platform tags among `tags`. */
  ghost function PlatformNames(tags: seq<TaxonomyTag>): set<string>
  {
    set i | 0 <= i < |tags| && IsPlatformTag(tags[i]) :: tags[i].name
  }

  /**
    The name -> id dictionary built from the service's answer; as in a Python
    dict comprehension, a later tag overwrites an earlier one of the same name.
   */
  function PlatformTags(tags: seq<TaxonomyTag>): (m: map<string, int>)
    ensures m.Keys == PlatformNames(tags)
  {
    if tags == [] then map[]
    else
      var m := PlatformTags(tags[..|tags| - 1]);
      var last := tags[|tags| - 1];
      assert PlatformNames(tags) ==
        PlatformNames(tags[..|tags| - 1]) + (if IsPlatformTag(last) then {last.name} else {}) by {
        assert forall i :: 0 <= i < |tags| - 1 ==> tags[..|tags| - 1][i] == tags[i];
      }
      if IsPlatformTag(last) then m[last.name := last.id] else m
  }

  /** A name maps to the id of the last platform tag that carries it. */
  lemma {:induction false} PlatformTagsLastWins(tags: seq<TaxonomyTag>, i: int)
    requires 0 <= i < |tags| && IsPlatformTag(tags[i])
    requires forall j :: i < j < |tags| && IsPlatformTag(tags[j]) ==> tags[j].name != tags[i].name
    ensures tags[i].name in PlatformTags(tags)
    ensures PlatformTags(tags)[tags[i].name] == tags[i].id
    decreases |tags|
  {
    if i < |tags| - 1 {
      var init := tags[..|tags| - 1];
      PlatformTagsLastWins(init, i);
    }
  }

  /** Every id in the dictionary belongs to a platform tag of that name. */
  lemma {:induction false} PlatformTagsFromTags(tags: seq<TaxonomyTag>, name: string)
    requires name in PlatformTags(tags)
    ensures exists i :: 0 <= i < |tags| && IsPlatformTag(tags[i]) &&
                        tags[i].name == name && tags[i].id == PlatformTags(tags)[name]
    decreases |tags|
  {
    var last := tags[|tags| - 1];
    if IsPlatformTag(last) && last.name == name {
      assert IsPlatformTag(tags[|tags| - 1]);
    } else {
      var init := tags[..|tags| - 1];
      PlatformTagsFromTags(init, name);
      var i :| 0 <= i < |init| && IsPlatformTag(init[i]) &&
               init[i].name == name && init[i].id == PlatformTags(init)[name];
      assert tags[i] == init[i];
    }
  }

  /**
    `cache.get(platformTag)`: the cache is keyed by strings, so no other value
    is found, and a list or mapping cannot be used as a key at all.
   */
  function LookupTag(cache: map<string, int>, platformTag: Value): (r: Result<int>)
    ensures r.Ok? <==> platformTag.Str? && platformTag.s in cache
    ensures r.Ok? ==> r.value == cache[platformTag.s]
    ensures r.Err? ==> r.error == (if platformTag.Arr? || platformTag.Obj? then UnhashableTag(platformTag)
                                   else TagNotFound(platformTag))
  {
    match platformTag
    case Str(s) => if s in cache then Ok(cache[s]) else Err(TagNotFound(platformTag))
    case Arr(_) => Err(UnhashableTag(platformTag))
    case Obj(_) => Err(UnhashableTag(platformTag))
    case _ => Err(TagNotFound(platformTag))
  }

  /** What a client with an empty cache answers: fetch the tags, then look the tag up. */
  function FreshLookup(service: Reply<seq<TaxonomyTag>>, platformTag: Value): (r: Result<int>)
    ensures service.HttpFailure? ==> r == Err(TaxonomyUpstream)
    ensures service.Success? ==> r == LookupTag(PlatformTags(service.body), platformTag)
  {
    match service
    case HttpFailure => Err(TaxonomyUpstream)
    case Success(tags) => LookupTag(PlatformTags(tags), platformTag)
  }

  /** A taxonomy client with its lazily filled cache. */
  class TaxonomyClient {
    /** What the taxonomy service answers to a request for its tags. */
    const service: Reply<seq<TaxonomyTag>>
    /** The cached name -> id dictionary; None until the first lookup succeeds in fetching. */
    var cache: Option<map<string, int>>
    /** The number of requests this client has sent to the taxonomy service. */
    ghost var fetches: nat

    ghost predicate Valid()
      reads this
    {
      && (cache.Some? ==> service.Success? && cache.value == PlatformTags(service.body))
      && (service.Success? ==> fetches <= 1 && (cache.Some? <==> fetches == 1))
      && (service.HttpFailure? ==> cache.None?)
    }

    constructor (service: Reply<seq<TaxonomyTag>>)
      ensures Valid()
      ensures this.service == service && cache.None? && fetches == 0
    {
      this.service := service;
      cache := None;
      fetches := 0;
    }

    /** One request to the taxonomy service, filtered down to the platform tags. */
    function FetchTaxonomyTags(): (r: Result<map<string, int>>)
      ensures r.Ok? <==> service.Success?
      ensures r.Err? ==> r.error == TaxonomyUpstream
      ensures r.Ok? ==> r.value == PlatformTags(service.body)
      ensures r.Ok? ==> r.value.Keys == PlatformNames(service.body)
    {
      match service
      case HttpFailure => Err(TaxonomyUpstream)
      case Success(tags) => Ok(PlatformTags(tags))
    }

    /**
      Looks a platform tag up, fetching the tags only while the cache is empty.
      With a working service the client therefore sends at most one request
      over its whole life, however many lookups it answers.
     */
    method GetTaxonomyTagId(platformTag: Value) returns (r: Result<int>)
      requires Valid()
      modifies this
      ensures Valid()
      ensures r == FreshLookup(service, platformTag)
      ensures old(cache).Some? ==> cache == old(cache) && fetches == old(fetches)
      ensures old(cache).None? ==> fetches == old(fetches) + 1
      ensures service.Success? ==> cache == Some(PlatformTags(service.body)) && fetches == 1
    {
      if cache.None? {
        fetches := fetches + 1;
        var fetched := FetchTaxonomyTags();
        if fetched.Err? {
          r := Err(fetched.error);
          return;
        }
        cache := Some(fetched.value);
      }
      r := LookupTag(cache.value, platformTag);
    }
  }
}
