/** The names that a host derives for the objects it owns. */
module Names {
  import opened Options
  import opened HostProtocol
  import opened HostSafety

  /** The lower-case page types. */
  const PAGE_TYPES := {"announcement", "error", "login"}

  function Derived(host: string, suffix: string): string {
    host + "-" + suffix
  }

  lemma DerivedEnd(host: string, suffix: string)
    requires suffix != ""
    ensures Derived(host, suffix) != ""
    ensures Derived(host, suffix)[|Derived(host, suffix)| - 1] == suffix[|suffix| - 1]
  {
  }

  /** Names of internal utility pages are injective in host and page type. */
  lemma PageNamesInjective(host: string, pageType: string, host': string, pageType': string)
    requires pageType in PAGE_TYPES && pageType' in PAGE_TYPES
    requires Derived(host, pageType) == Derived(host', pageType')
    ensures host == host' && pageType == pageType'
  {
    DerivedEnd(host, pageType);
    DerivedEnd(host', pageType');
    assert "announcement"[11] == 't' && "error"[4] == 'r' && "login"[4] == 'n';
    assert pageType == pageType';
    assert |host| == |host'|;
    assert host == Derived(host, pageType)[..|host|] && host' == Derived(host', pageType')[..|host'|];
  }

  /** For one host, translations of different names get different names. */
  lemma TranslationNamesInjective(host: string, name: string, name': string)
    requires Derived(host, name) == Derived(host, name')
    ensures name == name'
  {
    assert name == Derived(host, name)[|host| + 1..] && name' == Derived(host, name')[|host| + 1..];
  }

  /** The internal pages and translations that the protocol lets a pass write for a host are those
      whose names are derived from it. */
  lemma DerivedIsNamedAfter(h: Key, key: Key)
    ensures NamedAfter(h, key) <==>
      && (key.kind == InternalPage || key.kind == InternalTranslation)
      && exists suffix :: key == Key(key.kind, h.ns, Derived(h.name, suffix))
  {
    if NamedAfter(h, key) {
      var suffix: string :| key.name == h.name + "-" + suffix;
      assert key == Key(key.kind, h.ns, Derived(h.name, suffix));
    }
  }

  /** Two hosts of one namespace can derive the same name for a translation, and two hosts of two
      namespaces the same name for their cluster role bindings. */
  lemma NamesCollide()
    ensures Derived("a", "b-c") == Derived("a-b", "c")
    ensures Binding(Key(Host, "b-c", "a")) == Binding(Key(Host, "c", "a-b"))
  {
    assert Derived("a", "b-c") == "a-b-c" == Derived("a-b", "c");
  }

  /** An object that names another host is controlled by another uid. */
  lemma NamesAnotherUid(s: State, h: Key, key: Key)
    requires Inv(s) && Held(s.store, h) && h.kind == Host && key in s.store
    requires key.kind == InternalTranslation || key.kind == InternalPage
    requires Key(Host, key.ns, s.store[key].hostRef) != h
    ensures s.store[key].owner.Some? && s.store[key].owner != Some(s.store[h].uid)
  {
    assert Owned(s.store, key);
  }

  /** A create or update never touches an internal object that names another host: in every
      reachable state in which the pass over `h` is about to write one, the write is refused, or,
      if the object was replaced after it was read, at most skipped. */
  lemma CollisionIsRefused(run: seq<State>, k: nat, h: Key, listing: seq<Key>, changed: bool)
    requires IsRun(run) && k < |run| && Enabled(run[k], Call(h, listing, changed))
    requires var s, stage := run[k], run[k].passes[h].stage;
      && stage.Writing? && (stage.pre != [] || stage.k < FIXED)
      && var key := NextKey(h, stage.pre, stage.k);
         && key in s.store && (key.kind == InternalTranslation || key.kind == InternalPage)
         && Key(Host, key.ns, s.store[key].hostRef) != h
    ensures var s, t, stage := run[k], Next(run[k], Call(h, listing, changed)), run[k].passes[h].stage;
      && t.store == s.store && h in t.passes
      && (stage.found.None? || Current(s.store, NextKey(h, stage.pre, stage.k), stage.found.value)
          ==> t.passes[h].stage == Done(Failed))
  {
    var s, p := run[k], run[k].passes[h];
    RunKeepsInv(run, k);
    PassOf(s, h);
    var key := NextKey(h, p.stage.pre, p.stage.k);
    NamesAnotherUid(s, h, key);
    hide Inv, Cleared, Secured, Mutated;
  }
}
