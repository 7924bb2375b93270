/** Merging environment variables: the last definition of a name wins. */
module EnvVars {
  import opened Options

  datatype EnvVar = EnvVar(name: string, value: string)

  type Env = seq<EnvVar>

  /** The position of the last entry for `name`. */
  function LastIndex(env: Env, name: string): (r: Option<nat>)
    ensures r.Some? ==> r.value < |env| && env[r.value].name == name
    ensures r.Some? ==> forall i :: r.value < i < |env| ==> env[i].name != name
    ensures r.None? ==> forall i :: 0 <= i < |env| ==> env[i].name != name
  {
    if env == [] then None
    else if env[|env| - 1].name == name then Some(|env| - 1)
    else LastIndex(env[..|env| - 1], name)
  }

  function Lookup(env: Env, name: string): Option<string> {
    var i := LastIndex(env, name);
    if i.None? then None else Some(env[i.value].value)
  }

  function MergeOne(env: Env, v: EnvVar): Env {
    var i := LastIndex(env, v.name);
    if i.Some? then env[i.value := v] else env + [v]
  }

  function Merge(existing: Env, overrides: Env): Env {
    if overrides == [] then existing
    else MergeOne(Merge(existing, overrides[..|overrides| - 1]), overrides[|overrides| - 1])
  }

  /** `index` maps each name to its last position. */
  ghost predicate Indexes(index: map<string, nat>, env: Env) {
    forall name :: (name in index <==> LastIndex(env, name).Some?)
                && (name in index ==> LastIndex(env, name) == Some(index[name]))
  }

  lemma LastIndexUnique(env: Env, name: string, i: nat)
    requires i < |env| && env[i].name == name && forall j :: i < j < |env| ==> env[j].name != name
    ensures LastIndex(env, name) == Some(i)
  {
    var k := LastIndex(env, name).value;
    assert !(k < i) && !(i < k);
  }

  lemma AppendedIndex(env: Env, v: EnvVar, name: string)
    ensures LastIndex(env + [v], name) == if name == v.name then Some(|env|) else LastIndex(env, name)
  {
    assert (env + [v])[..|env|] == env;
  }

  lemma UpdatedIndex(env: Env, i: nat, v: EnvVar, name: string)
    requires i < |env| && env[i].name == v.name
    ensures LastIndex(env[i := v], name) == LastIndex(env, name)
  {
    var r := LastIndex(env, name);
    if r.Some? {
      LastIndexUnique(env[i := v], name, r.value);
    } else if LastIndex(env[i := v], name).Some? {
      assert false;
    }
  }

  method MergeEnvVars(existing: Env, overrides: Env) returns (merged: Env)
    ensures merged == Merge(existing, overrides)
  {
    merged := existing;
    var index: map<string, nat> := map[];
    for i := 0 to |existing|
      invariant Indexes(index, existing[..i])
    {
      assert existing[..i + 1] == existing[..i] + [existing[i]];
      forall name ensures LastIndex(existing[..i + 1], name)
                       == if name == existing[i].name then Some(i) else LastIndex(existing[..i], name)
      {
        AppendedIndex(existing[..i], existing[i], name);
      }
      index := index[existing[i].name := i];
    }
    assert existing[..|existing|] == existing;
    for i := 0 to |overrides|
      invariant merged == Merge(existing, overrides[..i])
      invariant Indexes(index, merged)
    {
      var override := overrides[i];
      assert overrides[..i + 1][..i] == overrides[..i];
      if override.name in index {
        forall name ensures LastIndex(merged[index[override.name] := override], name) == LastIndex(merged, name) {
          UpdatedIndex(merged, index[override.name], override, name);
        }
        merged := merged[index[override.name] := override];
      } else {
        forall name ensures LastIndex(merged + [override], name)
                         == if name == override.name then Some(|merged|) else LastIndex(merged, name)
        {
          AppendedIndex(merged, override, name);
        }
        merged := merged + [override];
        index := index[override.name := |merged| - 1];
      }
    }
    assert overrides[..|overrides|] == overrides;
  }

  // ---------- the result refines last-wins override ----------

  lemma MergeOneLookup(env: Env, v: EnvVar, name: string)
    ensures Lookup(MergeOne(env, v), name) == if name == v.name then Some(v.value) else Lookup(env, name)
  {
    var i := LastIndex(env, v.name);
    if i.Some? {
      UpdatedIndex(env, i.value, v, name);
    } else {
      AppendedIndex(env, v, name);
    }
  }

  /** Looking up the last occurrence gives the override if there is one, else the old value. */
  lemma {:induction false} MergeLookup(existing: Env, overrides: Env, name: string)
    ensures Lookup(Merge(existing, overrides), name)
         == if Lookup(overrides, name).Some? then Lookup(overrides, name) else Lookup(existing, name)
  {
    if overrides != [] {
      var init, last := overrides[..|overrides| - 1], overrides[|overrides| - 1];
      MergeLookup(existing, init, name);
      MergeOneLookup(Merge(existing, init), last, name);
    }
  }

  ghost predicate DistinctNames(env: Env) {
    forall i, j :: 0 <= i < j < |env| ==> env[i].name != env[j].name
  }

  /** Existing names keep their positions; distinct names stay distinct. */
  lemma {:induction false} MergeKeepsPositions(existing: Env, overrides: Env)
    ensures |Merge(existing, overrides)| >= |existing|
    ensures forall i :: 0 <= i < |existing| ==> Merge(existing, overrides)[i].name == existing[i].name
    ensures DistinctNames(existing) ==> DistinctNames(Merge(existing, overrides))
    ensures forall i :: 0 <= i < |existing| && Lookup(overrides, existing[i].name).None? ==>
              Merge(existing, overrides)[i] == existing[i]
  {
    if overrides != [] {
      var init, last := overrides[..|overrides| - 1], overrides[|overrides| - 1];
      MergeKeepsPositions(existing, init);
      var m := Merge(existing, init);
      assert Merge(existing, overrides) == MergeOne(m, last);
      forall i | 0 <= i < |existing| && Lookup(overrides, existing[i].name).None?
        ensures Merge(existing, overrides)[i] == existing[i]
      {
        assert Lookup(init, existing[i].name).None?;
      }
    }
  }

  /** Merging twice is merging the concatenation. */
  lemma {:induction false} MergeConcat(existing: Env, a: Env, b: Env)
    ensures Merge(existing, a + b) == Merge(Merge(existing, a), b)
  {
    if b == [] {
      assert a + b == a;
    } else {
      var init := b[..|b| - 1];
      assert (a + b)[..|a + b| - 1] == a + init;
      MergeConcat(existing, a, init);
    }
  }

  /** Merging one variable replaces the last one of that name, or appends. With MergeConcat this
      fixes every merge. */
  lemma MergeSingle(existing: Env, v: EnvVar)
    ensures Merge(existing, []) == existing
    ensures (forall i :: 0 <= i < |existing| ==> existing[i].name != v.name) ==> Merge(existing, [v]) == existing + [v]
    ensures forall i :: 0 <= i < |existing| && existing[i].name == v.name
                        && (forall j :: i < j < |existing| ==> existing[j].name != v.name)
              ==> Merge(existing, [v]) == existing[i := v]
  {
    assert [v][..0] == [];
    assert Merge(existing, [v]) == MergeOne(existing, v);
    forall i | 0 <= i < |existing| && existing[i].name == v.name
               && (forall j :: i < j < |existing| ==> existing[j].name != v.name)
      ensures Merge(existing, [v]) == existing[i := v]
    {
      LastIndexUnique(existing, v.name, i);
    }
  }

  function Flatten(envs: seq<Env>): Env {
    if envs == [] then [] else Flatten(envs[..|envs| - 1]) + envs[|envs| - 1]
  }

  /** The environment of a deployment created from `template` after passes over hosts whose
      environments were `envs`. A pass over a host without environment leaves it alone. */
  function AfterPasses(template: Env, envs: seq<Env>): Env {
    if envs == [] then template
    else
      var before, env := AfterPasses(template, envs[..|envs| - 1]), envs[|envs| - 1];
      if |env| > 0 then Merge(before, env) else before
  }

  lemma {:induction false} HistoryOfEnvironments(template: Env, envs: seq<Env>)
    ensures AfterPasses(template, envs) == Merge(template, Flatten(envs))
  {
    if envs != [] {
      HistoryOfEnvironments(template, envs[..|envs| - 1]);
      MergeConcat(template, Flatten(envs[..|envs| - 1]), envs[|envs| - 1]);
    }
  }

  lemma {:induction false} MergeAgain(env: Env, again: Env)
    requires forall i :: 0 <= i < |again| ==> LastIndex(env, again[i].name).Some?
    ensures |Merge(env, again)| == |env|
    ensures forall name :: LastIndex(Merge(env, again), name) == LastIndex(env, name)
  {
    if again != [] {
      var init, last := again[..|again| - 1], again[|again| - 1];
      MergeAgain(env, init);
      var m := Merge(env, init);
      forall name ensures LastIndex(MergeOne(m, last), name) == LastIndex(m, name) {
        UpdatedIndex(m, LastIndex(m, last.name).value, last, name);
      }
    }
  }

  /** Merging the same environment again changes nothing. */
  lemma MergeIdempotent(existing: Env, overrides: Env)
    ensures Merge(Merge(existing, overrides), overrides) == Merge(existing, overrides)
  {
    var m := Merge(existing, overrides);
    forall i | 0 <= i < |overrides| ensures LastIndex(m, overrides[i].name).Some? {
      MergeLookup(existing, overrides, overrides[i].name);
    }
    MergeAgain(m, overrides);
    var mm := Merge(m, overrides);
    forall i | 0 <= i < |m| ensures mm[i] == m[i] {
      SamePlace(m, overrides, i);
      if LastIndex(m, m[i].name) == Some(i) {
        MergeLookup(existing, overrides, m[i].name);
        MergeLookup(m, overrides, m[i].name);
      }
    }
  }

  /** Only the last entry of a name is ever written. */
  lemma {:induction false} SamePlace(env: Env, overrides: Env, i: nat)
    requires i < |env|
    ensures i < |Merge(env, overrides)| && Merge(env, overrides)[i].name == env[i].name
    ensures LastIndex(env, env[i].name) != Some(i) ==> Merge(env, overrides)[i] == env[i]
    ensures LastIndex(env, env[i].name) != Some(i) ==> LastIndex(Merge(env, overrides), env[i].name) != Some(i)
  {
    if overrides != [] {
      var init, last := overrides[..|overrides| - 1], overrides[|overrides| - 1];
      SamePlace(env, init, i);
      var m := Merge(env, init);
      MergeOneIndex(m, last, env[i].name);
    }
  }

  lemma MergeOneIndex(env: Env, v: EnvVar, name: string)
    ensures LastIndex(env, name).Some? ==> LastIndex(MergeOne(env, v), name) == LastIndex(env, name)
  {
    var i := LastIndex(env, v.name);
    if i.Some? {
      UpdatedIndex(env, i.value, v, name);
    } else {
      AppendedIndex(env, v, name);
    }
  }
}
