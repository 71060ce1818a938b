/**
  The deep merge of a shared platform configuration (the base) with a job
  configuration (the override): mappings present on both sides are merged key
  by key, recursively; anything else in the override replaces the base value.
 */
module ConfigMerge {
  import opened Wrappers
  import opened Json

  /** The merge recurses at `key` exactly when both sides hold a mapping there. */
  predicate RecursesAt(base: map<string, Value>, override: map<string, Value>, key: string)
  {
    key in base && key in override && base[key].Obj? && override[key].Obj?
  }

  /** The merged configuration, key by key. */
  function DeepMerge(base: map<string, Value>, override: map<string, Value>): (merged: map<string, Value>)
    ensures merged.Keys == base.Keys + override.Keys
    ensures forall k :: k in base && k !in override ==> merged[k] == base[k]
    ensures forall k :: k in override && !RecursesAt(base, override, k) ==> merged[k] == override[k]
    decreases Obj(override)
  {
    map k | k in base.Keys + override.Keys ::
      if RecursesAt(base, override, k) then Obj(DeepMerge(base[k].fields, override[k].fields))
      else if k in override then override[k]
      else base[k]
  }

  /**
    The helper's loop: start from a copy of `base` and visit the keys of
    `override` one at a time, merging into the copy. Neither input changes.
   */
  method DeepMergeWithPriority(base: map<string, Value>, override: map<string, Value>)
    returns (merged: map<string, Value>)
    ensures merged == DeepMerge(base, override)
    decreases Obj(override)
  {
    merged := base;
    var pending := override.Keys;
    while pending != {}
      invariant pending <= override.Keys
      invariant merged.Keys == base.Keys + (override.Keys - pending)
      invariant forall k :: k in merged ==>
        merged[k] == if k in override && k !in pending then DeepMerge(base, override)[k] else base[k]
      decreases pending
    {
      var key :| key in pending;
      if key in merged && merged[key].Obj? && override[key].Obj? {
        var sub := DeepMergeWithPriority(merged[key].fields, override[key].fields);
        merged := merged[key := Obj(sub)];
      } else {
        merged := merged[key := override[key]];
      }
      pending := pending - {key};
    }
  }

  /** Where both sides hold a mapping, the merged value is the merge of the two. */
  lemma MergeRecurses(base: map<string, Value>, override: map<string, Value>, key: string)
    requires RecursesAt(base, override, key)
    ensures DeepMerge(base, override)[key] == Obj(DeepMerge(base[key].fields, override[key].fields))
  {
  }

  /** Merging a configuration with itself gives it back. */
  lemma {:induction false} MergeSelf(x: map<string, Value>)
    ensures DeepMerge(x, x) == x
    decreases Obj(x)
  {
    var m := DeepMerge(x, x);
    forall k | k in x
      ensures m[k] == x[k]
    {
      if x[k].Obj? {
        MergeSelf(x[k].fields);
      }
    }
  }

  /** Applying the same override a second time changes nothing. */
  lemma {:induction false} MergeAbsorbs(base: map<string, Value>, override: map<string, Value>)
    ensures DeepMerge(DeepMerge(base, override), override) == DeepMerge(base, override)
    decreases Obj(override)
  {
    var m := DeepMerge(base, override);
    var mm := DeepMerge(m, override);
    forall k | k in mm
      ensures mm[k] == m[k]
    {
      if k in override {
        if RecursesAt(base, override, k) {
          MergeAbsorbs(base[k].fields, override[k].fields);
        } else if override[k].Obj? {
          MergeSelf(override[k].fields);
        }
      }
    }
  }

  /** An override without nested mappings is a plain key-wise update of the base. */
  lemma FlatOverrideIsUpdate(base: map<string, Value>, override: map<string, Value>)
    requires forall k :: k in override ==> !override[k].Obj?
    ensures DeepMerge(base, override) == base + override
  {
  }

  /** The value reached by following `path` through nested mappings. */
  function At(fields: map<string, Value>, path: seq<string>): Option<Value>
    requires path != []
    decreases |path|
  {
    if path[0] !in fields then None
    else if |path| == 1 then Some(fields[path[0]])
    else match fields[path[0]]
      case Obj(sub) => At(sub, path[1..])
      case _ => None
  }

  /** Every non-mapping value of the override appears at the same path in the merge. */
  lemma {:induction false} OverrideLeafWins(base: map<string, Value>, override: map<string, Value>,
                                           path: seq<string>, v: Value)
    requires path != [] && At(override, path) == Some(v) && !v.Obj?
    ensures At(DeepMerge(base, override), path) == Some(v)
    decreases |path|
  {
    var k := path[0];
    if |path| > 1 && RecursesAt(base, override, k) {
      OverrideLeafWins(base[k].fields, override[k].fields, path[1..], v);
    }
  }

  /**
    The override leaves `path` alone: it holds no value at the path itself and
    a mapping at every proper prefix it reaches.
   */
  predicate Untouched(override: map<string, Value>, path: seq<string>)
    requires path != []
    decreases |path|
  {
    path[0] !in override ||
    (|path| > 1 && override[path[0]].Obj? && Untouched(override[path[0]].fields, path[1..]))
  }

  /** A base value at a path the override leaves alone survives the merge unchanged. */
  lemma {:induction false} UntouchedBaseSurvives(base: map<string, Value>, override: map<string, Value>,
                                                path: seq<string>, v: Value)
    requires path != [] && At(base, path) == Some(v) && Untouched(override, path)
    ensures At(DeepMerge(base, override), path) == Some(v)
    decreases |path|
  {
    var k := path[0];
    if k in override {
      UntouchedBaseSurvives(base[k].fields, override[k].fields, path[1..], v);
    }
  }

  /**
    A job configuration merged over its platform's shared one: the job's table
    name and tag win, the shared retry count is kept.
   */
  lemma SharedJobMergeExample()
    ensures DeepMerge(map["foundations-table-name" := Str("shared.default"), "retries" := Int(3)],
                      map["platformTag" := Str("spark"), "foundations-table-name" := Str("jobs.spark_x")])
         == map["platformTag" := Str("spark"), "foundations-table-name" := Str("jobs.spark_x"), "retries" := Int(3)]
  {
  }
}
