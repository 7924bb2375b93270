/** Resolving a host's translations into internal translations. */
module Translations {
  import opened Options
  import opened HostProtocol
  import opened Names
  import opened HostResources

  /** The result of looking up one reference: nothing, or a source and whether it is Ready. */
  datatype Lookup = Missing | Seen(source: Source, ready: bool)

  predicate Usable(l: Lookup) {
    l.Seen? && l.ready
  }

  predicate AllUsable(configured: seq<Lookup>) {
    forall i :: 0 <= i < |configured| ==> Usable(configured[i])
  }

  /** The sources that are resolved: one per configured reference, and the default translation when
      it exists, Ready or not. */
  function Resolved(configured: seq<Lookup>, fallback: Lookup): seq<Source>
    requires AllUsable(configured)
  {
    seq(|configured|, i requires 0 <= i < |configured| && configured[i].Seen? => configured[i].source)
    + if fallback.Seen? then [fallback.source] else []
  }

  function ItemOf(s: Source): Item {
    TranslationItem(s.name, s.spec, s.generation)
  }

  /** One name per configured translation in order, and then that of the default translation. */
  predicate NamesAll(h: HostView, configured: seq<Lookup>, fallback: Lookup, names: seq<string>) {
    && |names| == |configured| + (if fallback.Seen? then 1 else 0)
    && (forall i :: 0 <= i < |configured| ==>
          configured[i].Seen? && names[i] == h.key.name + "-" + configured[i].source.name)
    && (fallback.Seen? ==> names[|configured|] == h.key.name + "-" + fallback.source.name)
  }

  /** The entry at `i` is the last of its name. */
  predicate IsFinal(configured: seq<Lookup>, fallback: Lookup, i: nat)
    requires i < |configured| && AllUsable(configured)
  {
    && (forall j :: i < j < |configured| ==> configured[j].source.name != configured[i].source.name)
    && (fallback.Seen? ==> fallback.source.name != configured[i].source.name)
  }

  /** All the names are of objects of the host, which hold the last source of their name. */
  predicate HoldsAll(store: Resources, h: HostView, configured: seq<Lookup>, fallback: Lookup, names: seq<string>)
    requires AllUsable(configured)
  {
    && (forall i :: 0 <= i < |names| ==> HasOwned(store, h, Key(InternalTranslation, h.key.ns, names[i])))
    && (forall i :: 0 <= i < |configured| && IsFinal(configured, fallback, i) ==>
          HoldsSource(store, h, InternalTranslation, configured[i].source.name, configured[i].source))
    && (fallback.Seen? ==> HoldsSource(store, h, InternalTranslation, fallback.source.name, fallback.source))
  }

  /** Create or update the internal translation of one source. */
  method CreateOrUpdateTranslation(c: Cluster, h: HostView, d: Defaults, source: Source) returns (name: Option<string>)
    modifies c
    ensures var e := Ensured(old(c.resources), h, d, ItemOf(source));
      c.resources == e.store && name == if e.ok then Some(Derived(h.key.name, source.name)) else None
  {
    hide Ensured;
    var ok, wrote := c.CreateOrUpdate(h, d, ItemOf(source));
    name := if ok then Some(Derived(h.key.name, source.name)) else None;
  }

  /** The loop over the configured references, then the default translation. It returns one name
      per configured reference in order, plus at most one for the default. It returns nothing
      exactly when a reference is missing or not Ready, or an update is refused. */
  method ResolveTranslations(c: Cluster, h: HostView, d: Defaults, configured: seq<Lookup>, fallback: Lookup)
    returns (refs: Option<seq<string>>)
    modifies c
    ensures refs.Some? <==>
      && AllUsable(configured)
      && PassOver(old(c.resources), h, d, TranslationItems(Resolved(configured, fallback))).ok
    ensures refs.Some? ==>
      var sources := Resolved(configured, fallback);
      && refs.value == TranslationNames(h.key, sources)
      && c.resources == PassOver(old(c.resources), h, d, TranslationItems(sources)).store
    ensures (exists l :: l in configured && (l.Missing? || !l.ready)) ==> refs.None?
    ensures refs.Some? ==>
      NamesAll(h, configured, fallback, refs.value) && HoldsAll(c.resources, h, configured, fallback, refs.value)
  {
    hide Ensured, PassOver, NamesAll, HoldsAll;
    ghost var store := c.resources;
    var names: seq<string> := [];
    ghost var done: seq<Source> := [];
    EmptyPass(store, h, d);
    for i := 0 to |configured|
      invariant AllUsable(configured[..i])
      invariant |done| == i && forall k :: 0 <= k < i ==> done[k] == configured[k].source
      invariant names == TranslationNames(h.key, done)
      invariant PassOver(store, h, d, TranslationItems(done)).ok
      invariant PassOver(store, h, d, TranslationItems(done)).store == c.resources
    {
      var l := configured[i];
      if !Usable(l) {
        return None;
      }
      OneSourceMore(store, h, d, done, l.source);
      var name := CreateOrUpdateTranslation(c, h, d, l.source);
      if name.None? {
        if AllUsable(configured) {
          assert done + [l.source] <= Resolved(configured, fallback);
          FailedPrefix(store, h, d, done + [l.source], Resolved(configured, fallback));
        }
        return None;
      }
      names := names + [name.value];
      done := done + [l.source];
    }
    assert configured[..|configured|] == configured;
    if fallback.Seen? {
      OneSourceMore(store, h, d, done, fallback.source);
      assert Resolved(configured, fallback) == done + [fallback.source];
      var name := CreateOrUpdateTranslation(c, h, d, fallback.source);
      if name.None? {
        return None;
      }
      names := names + [name.value];
    } else {
      assert Resolved(configured, fallback) == done;
    }
    ResolvedHolds(store, h, d, configured, fallback);
    return Some(names);
  }

  lemma EmptyPass(store: Resources, h: HostView, d: Defaults)
    ensures PassOver(store, h, d, TranslationItems([])) == Report(store, 0, true)
  {
  }

  lemma OneSourceMore(store: Resources, h: HostView, d: Defaults, done: seq<Source>, s: Source)
    ensures TranslationItems(done + [s]) == TranslationItems(done) + [ItemOf(s)]
    ensures TranslationNames(h.key, done + [s]) == TranslationNames(h.key, done) + [Derived(h.key.name, s.name)]
    ensures var r := PassOver(store, h, d, TranslationItems(done));
      r.ok ==>
        var e := Ensured(r.store, h, d, ItemOf(s));
        PassOver(store, h, d, TranslationItems(done + [s])) == Report(e.store, r.writes + e.writes, e.ok)
  {
    hide Mutate;
    var items := TranslationItems(done + [s]);
    assert items[..|items| - 1] == TranslationItems(done);
  }

  lemma {:induction false} FailedPrefix(store: Resources, h: HostView, d: Defaults, a: seq<Source>, b: seq<Source>)
    requires a <= b && !PassOver(store, h, d, TranslationItems(a)).ok
    ensures !PassOver(store, h, d, TranslationItems(b)).ok
    decreases |b|
  {
    hide Ensured;
    if a == b {
    } else {
      var init := b[..|b| - 1];
      assert a <= init;
      FailedPrefix(store, h, d, a, init);
      var items := TranslationItems(b);
      assert items[..|items| - 1] == TranslationItems(init);
    }
  }

  // ---------- what the resolved list names ----------

  /** The last source of a name. */
  function LastOf(sources: seq<Source>, name: string): Option<Source> {
    if sources == [] then None
    else if sources[|sources| - 1].name == name then Some(sources[|sources| - 1])
    else LastOf(sources[..|sources| - 1], name)
  }

  /** Every name that is resolved belongs to an existing internal translation which this host
      controls and whose content is that of the last source resolved to that name. */
  lemma {:induction false} LastSourceWins(store: Resources, h: HostView, d: Defaults, sources: seq<Source>, name: string)
    requires PassOver(store, h, d, TranslationItems(sources)).ok
    ensures var r := PassOver(store, h, d, TranslationItems(sources)).store;
      var key := Key(InternalTranslation, h.key.ns, Derived(h.key.name, name));
      match LastOf(sources, name)
      case None => Find(r, key) == Find(store, key)
      case Some(s) =>
        && key in r && r[key].owner == Some(h.uid) && r[key].body == ContentBody(s.spec, h.key.name)
        && r[key].generation == Some(s.generation)
  {
    if sources != [] {
      var init, last := sources[..|sources| - 1], sources[|sources| - 1];
      assert sources == init + [last];
      OneSourceMore(store, h, d, init, last);
      var mid := PassOver(store, h, d, TranslationItems(init));
      PrefixOk(store, h, d, sources);
      LastSourceWins(store, h, d, init, name);
      var item := ItemOf(last);
      EnsuredIsMutated(mid.store, h, d, item);
      if last.name != name && KeyOf(h.key, item) == Key(InternalTranslation, h.key.ns, Derived(h.key.name, name)) {
        TranslationNamesInjective(h.key.name, last.name, name);
      }
    }
  }

  lemma PrefixOk(store: Resources, h: HostView, d: Defaults, sources: seq<Source>)
    requires sources != [] && PassOver(store, h, d, TranslationItems(sources)).ok
    ensures PassOver(store, h, d, TranslationItems(sources[..|sources| - 1])).ok
  {
    hide Ensured;
    var items := TranslationItems(sources);
    assert items[..|items| - 1] == TranslationItems(sources[..|sources| - 1]);
  }

  /** The resolved list: its entry for each source names an internal translation that exists, that
      this host controls, and whose content is that of the last source of the same name. */
  lemma ResolvedNamesExist(store: Resources, h: HostView, d: Defaults, sources: seq<Source>, i: nat)
    requires PassOver(store, h, d, TranslationItems(sources)).ok && i < |sources|
    ensures var r := PassOver(store, h, d, TranslationItems(sources)).store;
      var key := Key(InternalTranslation, h.key.ns, TranslationNames(h.key, sources)[i]);
      && key in r && r[key].owner == Some(h.uid)
      && exists k :: i <= k < |sources| && sources[k].name == sources[i].name
                     && (forall j :: k < j < |sources| ==> sources[j].name != sources[i].name)
                     && r[key].body == ContentBody(sources[k].spec, h.key.name)
                     && r[key].generation == Some(sources[k].generation)
  {
    hide PassOver;
    LastSourceWins(store, h, d, sources, sources[i].name);
    var k := LastIndex(sources, i);
    LastOfAt(sources, k);
  }

  /** The source at `k`, if it is the last of its name, is what the object of that name holds. */
  lemma LastSourceHolds(store: Resources, h: HostView, d: Defaults, sources: seq<Source>, k: nat)
    requires PassOver(store, h, d, TranslationItems(sources)).ok && k < |sources|
    requires forall j :: k < j < |sources| ==> sources[j].name != sources[k].name
    ensures HoldsSource(PassOver(store, h, d, TranslationItems(sources)).store, h, InternalTranslation,
                        sources[k].name, sources[k])
  {
    hide PassOver;
    LastOfAt(sources, k);
    LastSourceWins(store, h, d, sources, sources[k].name);
  }

  lemma ResolvedHolds(store: Resources, h: HostView, d: Defaults, configured: seq<Lookup>, fallback: Lookup)
    requires AllUsable(configured)
    requires PassOver(store, h, d, TranslationItems(Resolved(configured, fallback))).ok
    ensures var sources := Resolved(configured, fallback);
      && NamesAll(h, configured, fallback, TranslationNames(h.key, sources))
      && HoldsAll(PassOver(store, h, d, TranslationItems(sources)).store, h, configured, fallback,
                  TranslationNames(h.key, sources))
  {
    hide PassOver, HoldsSource;
    var sources := Resolved(configured, fallback);
    var names, r := TranslationNames(h.key, sources), PassOver(store, h, d, TranslationItems(sources)).store;
    forall i | 0 <= i < |names| ensures HasOwned(r, h, Key(InternalTranslation, h.key.ns, names[i])) {
      ResolvedNamesExist(store, h, d, sources, i);
    }
    forall i | 0 <= i < |configured| && IsFinal(configured, fallback, i)
      ensures HoldsSource(r, h, InternalTranslation, configured[i].source.name, configured[i].source)
    {
      assert sources[i] == configured[i].source;
      LastSourceHolds(store, h, d, sources, i);
    }
    if fallback.Seen? {
      LastSourceHolds(store, h, d, sources, |configured|);
    }
  }

  /** The greatest index of a source with the name of the one at `i`. */
  lemma LastIndex(sources: seq<Source>, i: nat) returns (k: nat)
    requires i < |sources|
    ensures i <= k < |sources| && sources[k].name == sources[i].name
    ensures forall j :: k < j < |sources| ==> sources[j].name != sources[i].name
  {
    k := |sources| - 1;
    while sources[k].name != sources[i].name
      decreases k
      invariant i <= k < |sources|
      invariant forall j :: k < j < |sources| ==> sources[j].name != sources[i].name
    {
      k := k - 1;
    }
  }

  lemma {:induction false} LastOfAt(sources: seq<Source>, k: nat)
    requires k < |sources| && forall j :: k < j < |sources| ==> sources[j].name != sources[k].name
    ensures LastOf(sources, sources[k].name) == Some(sources[k])
  {
    if k < |sources| - 1 {
      LastOfAt(sources[..|sources| - 1], k);
    }
  }
}
