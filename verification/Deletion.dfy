/** What the passes over a host delete is the host's. */
module Deletion {
  import opened Options
  import opened HostProtocol
  import opened HostSafety
  import opened Teardown

  /** What is still to be deleted of the listing that the pass made. */
  function ToDelete(stage: Stage): seq<Key> {
    match stage
    case DeletePages(left) => left
    case DeleteTranslations(left) => left
    case _ => []
  }

  /** The next call deletes this object. */
  predicate Deletes(h: Key, stage: Stage, key: Key) {
    match stage
    case DeleteInternalHost => key == Own(h, InternalHost)
    case DeleteDeployment => key == Own(h, Deployment)
    case DeletePages(left) => left != [] && key == left[0]
    case DeleteTranslations(left) => left != [] && key == left[0]
    case _ => false
  }

  // ---------- one step ----------

  lemma MildDeletes(s: State, h: Key, listing: seq<Key>, changed: bool, key: Key)
    requires h in s.passes && Mild(s.passes[h].stage) && Live(s.store, key)
    ensures Live(CallStep(s, h, listing, changed).store, key) || Deletes(h, s.passes[h].stage, key)
  {
    hide Ensure, Listed;
  }

  lemma EnsureKeepsLive(s: State, h: Key, changed: bool, key: Key)
    requires h in s.passes && PassShape(s.store, s.clock, h, s.passes[h]) && s.passes[h].stage.Writing?
    requires s.passes[h].stage.pre != [] || s.passes[h].stage.k < FIXED
    requires Live(s.store, key)
    ensures var p := s.passes[h];
      Live(Ensure(s, h, p, NextKey(h, p.stage.pre, p.stage.k), p.stage.found, changed).0.store, key)
  {
    hide Cleared, Secured, Prefix;
  }

  lemma UnholdKeepsLive(s: State, t: State, h: Key, x: Key, key: Key)
    requires Unhold(s, t, h, x) && Live(s.store, key) && x in t.store
    ensures Live(t.store, key)
  {
    if x != key {
      Elsewhere(s, t, x, key);
    }
  }

  lemma UnholdingKeepsLive(s: State, h: Key, listing: seq<Key>, changed: bool, key: Key)
    requires h in s.passes && Unholding(s.passes[h].stage) && Live(s.store, key)
    ensures Live(CallStep(s, h, listing, changed).store, key)
  {
    hide Ensure, Listed, Delete;
  }

  /** A call takes life from nothing but what its stage is about to delete. */
  lemma CallDeletes(s: State, h: Key, listing: seq<Key>, changed: bool, key: Key)
    requires Inv(s) && Enabled(s, Call(h, listing, changed)) && Live(s.store, key)
    ensures Live(Next(s, Call(h, listing, changed)).store, key) || Deletes(h, s.passes[h].stage, key)
  {
    var p := s.passes[h];
    PassOf(s, h);
    hide Inv, Cleared, CallStep, Ensure;
    if Mild(p.stage) {
      MildDeletes(s, h, listing, changed, key);
    } else if p.stage.Writing? {
      EnsureFailsQuietly(s, h, p, NextKey(h, p.stage.pre, p.stage.k), p.stage.found, changed);
      EnsureKeepsLive(s, h, changed, key);
      WritingStore(s, h, listing, changed);
    } else {
      UnholdingKeepsLive(s, h, listing, changed, key);
    }
  }

  lemma WritingStore(s: State, h: Key, listing: seq<Key>, changed: bool)
    requires h in s.passes && s.passes[h].stage.Writing?
    requires s.passes[h].stage.pre != [] || s.passes[h].stage.k < FIXED
    ensures var p := s.passes[h];
      CallStep(s, h, listing, changed).store
      == Ensure(s, h, p, NextKey(h, p.stage.pre, p.stage.k), p.stage.found, changed).0.store
  {
    hide Ensure;
  }

  /** What is left to delete was left before, or has just been listed. */
  lemma LeftStep(s: State, a: Action, h: Key, key: Key)
    requires Enabled(s, a) && h in Next(s, a).passes && key in ToDelete(Next(s, a).passes[h].stage)
    ensures h in s.passes
    ensures key in ToDelete(s.passes[h].stage) || key in Listed(s.store, h, InternalPage)
         || key in Listed(s.store, h, InternalTranslation)
  {
    hide Ensure, Delete, Put, Listed, Total;
    if a.Call? && a.h != h {
      CallOthers(s, a.h, a.listing, a.changed);
    } else if a.Call? && s.passes[h].stage.Writing? && (s.passes[h].stage.pre != [] || s.passes[h].stage.k < FIXED) {
      EnsureLeavesPasses(s, h, s.passes[h], a.listing, a.changed);
    }
  }

  // ---------- runs ----------

  /** At moment `j` the object named the host and was controlled by it, and the pass over the host
      has been in flight from then until moment `k`. */
  ghost predicate OwnSince(run: seq<State>, j: nat, k: nat, h: Key, key: Key) {
    && j <= k < |run| && key in run[j].store && h in run[j].store
    && (key.kind == InternalPage || key.kind == InternalTranslation) && key.ns == h.ns
    && run[j].store[key].hostRef == h.name && run[j].store[key].owner == Some(run[j].store[h].uid)
    && forall m :: j <= m <= k ==> h in run[m].passes
  }

  ghost predicate WasOwn(run: seq<State>, k: nat, h: Key, key: Key) {
    exists j: nat :: OwnSince(run, j, k, h, key)
  }

  lemma ListedIsOwn(run: seq<State>, k: nat, h: Key, key: Key, kind: Kind)
    requires IsRun(run) && k < |run| && h in run[k].passes
    requires kind == InternalPage || kind == InternalTranslation
    requires key in Listed(run[k].store, h, kind)
    ensures OwnSince(run, k, k, h, key)
  {
    RunKeepsInv(run, k);
    HostKind(run[k], h);
    HostRefNamesOwner(run, k, key);
    assert Key(Host, key.ns, run[k].store[key].hostRef) == h;
  }

  lemma {:induction false} LeftIsOwn(run: seq<State>, k: nat, h: Key, key: Key)
    requires IsRun(run) && k < |run| && h in run[k].passes && key in ToDelete(run[k].passes[h].stage)
    ensures WasOwn(run, k, h, key)
  {
    hide ToDelete, Listed, Next, Enabled;
    if k > 0 {
      assert Follows(run[k - 1], run[k - 1 + 1]);
      var a :| Enabled(run[k - 1], a) && run[k] == Next(run[k - 1], a);
      LeftStep(run[k - 1], a, h, key);
      if key in ToDelete(run[k - 1].passes[h].stage) {
        LeftIsOwn(run, k - 1, h, key);
        var j: nat :| OwnSince(run, j, k - 1, h, key);
        assert OwnSince(run, j, k, h, key);
      } else {
        var kind := if key in Listed(run[k - 1].store, h, InternalPage) then InternalPage else InternalTranslation;
        ListedIsOwn(run, k - 1, h, key, kind);
        assert OwnSince(run, k - 1, k, h, key);
      }
    }
  }

  /** A pass deletes nothing but what is the host's: if a call of the pass over `h` marks a live
      object or makes it vanish, the host is being deleted, and the object is its internal host,
      its deployment, or a page or translation that the same pass has found to be the host's. */
  lemma DeletesOnlyOwn(run: seq<State>, k: nat, h: Key, listing: seq<Key>, changed: bool, key: Key)
    requires IsRun(run) && k < |run| && Enabled(run[k], Call(h, listing, changed))
    requires Live(run[k].store, key) && !Live(Next(run[k], Call(h, listing, changed)).store, key)
    ensures h in run[k].store && run[k].store[h].marked
    ensures key == Key(InternalHost, h.ns, h.name) || key == Key(Deployment, h.ns, h.name) || WasOwn(run, k, h, key)
  {
    var s := run[k];
    RunKeepsInv(run, k);
    PassOf(s, h);
    CallDeletes(s, h, listing, changed, key);
    hide Inv, Cleared, CallStep, WasOwn;
    if ToDelete(s.passes[h].stage) != [] && key == ToDelete(s.passes[h].stage)[0] {
      LeftIsOwn(run, k, h, key);
    }
  }
}
