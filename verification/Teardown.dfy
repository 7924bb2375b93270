/** Progress of the teardown of a deleted host. */
module Teardown {
  import opened HostProtocol
  import opened HostSafety

  // ---------- sums of weights ----------

  lemma {:induction false} SumWithout(store: Store, keys: set<Key>, x: Key)
    requires keys <= store.Keys && x in keys
    ensures Sum(store, keys) == Weight(store[x]) + Sum(store, keys - {x})
    decreases keys
  {
    var y :| y in keys && Sum(store, keys) == Weight(store[y]) + Sum(store, keys - {y});
    if y != x {
      SumWithout(store, keys - {y}, x);
      assert keys - {y} - {x} == keys - {x} - {y};
      SumWithout(store, keys - {x}, y);
    }
  }

  lemma {:induction false} SumAtMost(store: Store, keys: set<Key>, store': Store, keys': set<Key>)
    requires keys <= store.Keys && keys' <= store'.Keys && keys' <= keys
    requires forall k :: k in keys' ==> Weight(store'[k]) <= Weight(store[k])
    ensures Sum(store', keys') <= Sum(store, keys)
    decreases keys
  {
    if keys != {} {
      var x :| x in keys;
      SumWithout(store, keys, x);
      if x in keys' {
        SumWithout(store', keys', x);
      } else {
        assert keys' - {x} == keys';
      }
      SumAtMost(store, keys - {x}, store', keys' - {x});
    }
  }

  lemma SumLess(store: Store, keys: set<Key>, store': Store, keys': set<Key>, x: Key)
    requires keys <= store.Keys && keys' <= store'.Keys && keys' <= keys
    requires forall k :: k in keys' ==> Weight(store'[k]) <= Weight(store[k])
    requires x in keys && (x in keys' ==> Weight(store'[x]) < Weight(store[x]))
    ensures Sum(store', keys') < Sum(store, keys)
  {
    SumWithout(store, keys, x);
    SumAtMost(store, keys - {x}, store', keys' - {x});
    if x in keys' {
      SumWithout(store', keys', x);
    } else {
      assert keys' - {x} == keys';
    }
  }

  // ---------- the teardown phase ----------

  /** The host is deleted, still carries its finalizer, and no pass that began before its deletion
      is in flight. */
  ghost predicate TearingDown(s: State, h: Key) {
    && h.kind == Host && Held(s.store, h) && s.store[h].marked
    && (h in s.passes ==>
          s.passes[h].host.marked && (Tearing(s.passes[h].stage) || s.passes[h].stage.Done?))
  }

  /** The step does not put a new finalizer on an object that teardown waits for. */
  predicate Unburdened(s: State, a: Action, h: Key) {
    a.AddForeign? ==> a.key !in Remaining(s.store, h)
  }

  ghost predicate Lighter(store: Store, store': Store, h: Key) {
    && Remaining(store', h) <= Remaining(store, h)
    && (forall k :: k in Remaining(store', h) && k in store && k in store' ==> Weight(store'[k]) <= Weight(store[k]))
    && (Held(store', Binding(h)) ==> Held(store, Binding(h)))
    && (Held(store', Account(h)) ==> Held(store, Account(h)))
  }

  lemma LighterTotal(store: Store, store': Store, h: Key)
    requires Lighter(store, store', h)
    ensures Total(store', h) <= Total(store, h)
  {
    SumAtMost(store, Remaining(store, h), store', Remaining(store', h));
  }

  lemma BenignLighter(s: State, t: State, x: Key, h: Key)
    requires Benign(s, t, x)
    requires x in Remaining(s.store, h) && x in t.store ==> Weight(t.store[x]) <= Weight(s.store[x])
    ensures Lighter(s.store, t.store, h)
  {
    BenignListed(s, t, x, h, InternalPage);
    BenignListed(s, t, x, h, InternalTranslation);
    BenignHeld(s, t, x, Own(h, InternalHost));
    BenignHeld(s, t, x, Own(h, Deployment));
    BenignHeld(s, t, x, Binding(h));
    BenignHeld(s, t, x, Account(h));
    forall k | k in Remaining(t.store, h) && k in s.store && k in t.store
      ensures Weight(t.store[k]) <= Weight(s.store[k])
    {
      if k != x { Elsewhere(s, t, x, k); }
    }
  }

  lemma EnsureLighter(s: State, t: State, g: Key, x: Key, h: Key)
    requires Inv(s) && EnsureWrite(s, t, g, x) && h.kind == Host && h in s.store && g != h
    ensures Lighter(s.store, t.store, h)
  {
    CreatesOwnKinds(g, x);
    assert Binding(g) != Binding(h);
    EnsureListed(s, t, g, x, h, InternalPage);
    EnsureListed(s, t, g, x, h, InternalTranslation);
    EnsureElsewhere(s, t, g, x, Own(h, InternalHost));
    EnsureElsewhere(s, t, g, x, Own(h, Deployment));
    EnsureElsewhere(s, t, g, x, Binding(h));
    EnsureElsewhere(s, t, g, x, Account(h));
    forall k | k in Remaining(t.store, h) && k in s.store && k in t.store
      ensures Weight(t.store[k]) <= Weight(s.store[k])
    {
      assert k != x by { EnsuredIsNotTheirs(t, g, x, h); }
      Elsewhere(s, t, x, k);
    }
  }

  lemma EnsuredIsNotTheirs(t: State, g: Key, x: Key, h: Key)
    requires Creates(g, x) && x in t.store && g.kind == Host && h.kind == Host && g != h
    requires x.kind == InternalPage || x.kind == InternalTranslation ==> t.store[x].hostRef == g.name
    ensures x !in Remaining(t.store, h)
  {
    CreatesOwnKinds(g, x);
  }

  lemma UnholdLighter(s: State, t: State, g: Key, x: Key, h: Key)
    requires Unhold(s, t, g, x)
    ensures Lighter(s.store, t.store, h)
  {
    UnholdKinds(s, t, g, x);
    forall y ensures y in t.store ==> y in s.store && t.store[y].hostRef == s.store[y].hostRef
    {
      if y != x { Elsewhere(s, t, x, y); }
    }
    forall y ensures Held(t.store, y) ==> Held(s.store, y) && (y != x ==> t.store[y] == s.store[y])
    {
      if y != x { Elsewhere(s, t, x, y); }
    }
    assert Listed(t.store, h, InternalPage) <= Listed(s.store, h, InternalPage);
    assert Listed(t.store, h, InternalTranslation) <= Listed(s.store, h, InternalTranslation);
    forall k | k in Remaining(t.store, h) && k in s.store && k in t.store
      ensures Weight(t.store[k]) <= Weight(s.store[k])
    {
      if k != x { Elsewhere(s, t, x, k); }
    }
  }

  lemma EnvironmentWeight(s: State, a: Action, h: Key)
    requires Inv(s) && Enabled(s, a) && !a.AddHost? && !a.Call? && Unburdened(s, a, h)
    ensures Lighter(s.store, Next(s, a).store, h)
  {
    var x := match a case Touch(k) => k case AddForeign(k, _) => k case DropForeign(k, _) => k
                     case UserDelete(k) => k case Begin(g, _) => g case Abort(g) => g case End(g, _) => g
                     case _ => h;
    EnvironmentIsBenign(s, a, x);
    var t := Next(s, a);
    if x in Remaining(s.store, h) && x in t.store {
      hide Remaining;
      if a.DropForeign? {
        assert t.store[x].foreign <= s.store[x].foreign;
        FewerMembers(t.store[x].foreign, s.store[x].foreign);
      }
    }
    BenignLighter(s, t, x, h);
  }

  lemma FewerMembers(a: set<string>, b: set<string>)
    requires a <= b
    ensures |a| <= |b|
  {
    assert b == a + (b - a);
  }

  lemma MildWeight(s: State, g: Key, listing: seq<Key>, changed: bool, h: Key)
    requires Inv(s) && Enabled(s, Call(g, listing, changed)) && Mild(s.passes[g].stage)
    ensures Lighter(s.store, Next(s, Call(g, listing, changed)).store, h)
  {
    hide Inv, Next, CallStep, Remaining, Lighter, Weight;
    MildIsBenign(s, g, listing, changed);
    var t, x := Next(s, Call(g, listing, changed)), MildTarget(g, s.passes[g].stage);
    RemainingKinds(s.store, h);
    if x in Remaining(s.store, h) && x in t.store {
      MildLightens(s, g, listing, changed);
    }
    BenignLighter(s, t, x, h);
  }

  lemma RemainingKinds(store: Store, h: Key)
    ensures forall x :: x in Remaining(store, h) ==> x in store && x.kind != Host
  {
  }

  lemma MildLightens(s: State, g: Key, listing: seq<Key>, changed: bool)
    requires Inv(s) && Enabled(s, Call(g, listing, changed)) && Mild(s.passes[g].stage)
    ensures var t, x := Next(s, Call(g, listing, changed)), MildTarget(g, s.passes[g].stage);
            x in s.store && x in t.store && x.kind != Host ==> Weight(t.store[x]) <= Weight(s.store[x])
  {
    hide Inv, Listed, Ensure, Mild, MildTarget, CallStep, Delete;
    HostKind(s, g);
    MildStore(s, g, listing, changed);
    var t, x := Next(s, Call(g, listing, changed)), MildTarget(g, s.passes[g].stage);
    if x in s.store && x in t.store && t.store == Delete(s.store, x, s.clock) {
      DeleteLightens(s.store, x, s.clock);
    }
  }

  lemma DeleteLightens(store: Store, x: Key, clock: nat)
    requires x in store && x in Delete(store, x, clock)
    ensures Weight(Delete(store, x, clock)[x]) <= Weight(store[x])
  {
  }

  lemma WritingWeight(s: State, g: Key, listing: seq<Key>, changed: bool, h: Key)
    requires Inv(s) && Enabled(s, Call(g, listing, changed)) && s.passes[g].stage.Writing?
    requires h.kind == Host && h in s.store && g != h
    ensures Lighter(s.store, Next(s, Call(g, listing, changed)).store, h)
  {
    var t, p := Next(s, Call(g, listing, changed)), s.passes[g];
    assert PassShape(s.store, s.clock, g, p);
    var x := NextKey(g, p.stage.pre, p.stage.k);
    var (u, ok) := Ensure(s, g, p, x, p.stage.found, changed);
    EnsureFailsQuietly(s, g, p, x, p.stage.found, changed);
    if ok {
      EnsureIsEnsureWrite(s, g, changed, u, x);
      WritingEffect(s, g, listing, changed);
      if u.store != s.store {
        EnsureLighter(s, u.(clock := s.clock + 1), g, x, h);
      }
    }
  }

  lemma QuietLightens(s: State, a: Action, h: Key)
    requires Inv(s) && TearingDown(s, h) && Enabled(s, a) && Unburdened(s, a, h)
    ensures Lighter(s.store, Next(s, a).store, h)
  {
    hide Lighter, PassShape, Unhold, CallStep, Benign;
    var t := Next(s, a);
    match a {
      case AddHost(g) => AddHostWeight(s, g, h);
      case Call(g, listing, changed) =>
        var p := s.passes[g];
        if Mild(p.stage) {
          MildWeight(s, g, listing, changed, h);
        } else if p.stage.Writing? {
          WritingWeight(s, g, listing, changed, h);
        } else {
          UnholdingEffect(s, g, listing, changed);
          if t.store == s.store {
            SameWeight(s.store, h);
          } else {
            UnholdLighter(s, t, g, UnholdTarget(g, p.stage), h);
          }
        }
      case _ => EnvironmentWeight(s, a, h);
    }
  }

  lemma SameWeight(store: Store, h: Key)
    ensures Lighter(store, store, h)
  {
  }

  lemma AddHostWeight(s: State, g: Key, h: Key)
    requires Enabled(s, AddHost(g))
    ensures Lighter(s.store, Next(s, AddHost(g)).store, h)
  {
    var t := Next(s, AddHost(g));
    assert Listed(t.store, h, InternalPage) == Listed(s.store, h, InternalPage);
    assert Listed(t.store, h, InternalTranslation) == Listed(s.store, h, InternalTranslation);
  }

  lemma RemainingHere(store: Store, h: Key)
    ensures Remaining(store, h) <= store.Keys
  {
  }

  predicate Live(store: Store, key: Key) {
    key in store && !store[key].marked
  }

  lemma BurdenLeavesRest(s: State, key: Key, finalizer: string, h: Key)
    requires Enabled(s, AddForeign(key, finalizer))
    ensures var t := Next(s, AddForeign(key, finalizer));
      && Remaining(t.store, h) == Remaining(s.store, h)
      && (Held(t.store, Binding(h)) <==> Held(s.store, Binding(h)))
      && (Held(t.store, Account(h)) <==> Held(s.store, Account(h)))
      && (forall x :: Live(s.store, x) ==> Live(t.store, x))
  {
    var t := Next(s, AddForeign(key, finalizer));
    assert Listed(t.store, h, InternalPage) == Listed(s.store, h, InternalPage);
    assert Listed(t.store, h, InternalTranslation) == Listed(s.store, h, InternalTranslation);
  }

  lemma BurdenWeight(s: State, key: Key, finalizer: string)
    requires Enabled(s, AddForeign(key, finalizer))
    ensures var t := Next(s, AddForeign(key, finalizer));
      && t.store.Keys == s.store.Keys && Weight(t.store[key]) <= Weight(s.store[key]) + 1
      && forall x :: x in s.store && x != key ==> t.store[x] == s.store[x]
  {
    OneMember(s.store[key].foreign, finalizer);
  }

  /** A new finalizer on one of the objects that remain adds one at most. */
  lemma BurdenAddsOne(s: State, key: Key, finalizer: string, h: Key)
    requires Enabled(s, AddForeign(key, finalizer)) && key in Remaining(s.store, h)
    ensures Total(Next(s, AddForeign(key, finalizer)).store, h) <= Total(s.store, h) + 1
  {
    hide Enabled, Next, Remaining, Weight, Held, Binding;
    var t, keys := Next(s, AddForeign(key, finalizer)), Remaining(s.store, h);
    BurdenLeavesRest(s, key, finalizer, h);
    BurdenWeight(s, key, finalizer);
    RemainingHere(s.store, h);
    SumWithout(s.store, keys, key);
    SumWithout(t.store, keys, key);
    SumAtMost(s.store, keys - {key}, t.store, keys - {key});
  }

  lemma OneMember(a: set<string>, x: string)
    ensures |a + {x}| <= |a| + 1
  {
    if x in a { assert a + {x} == a; }
  }

  /** Once no pass that began before the deletion is in flight, no step increases what is left, but
      for a new finalizer on one of the objects that remain, which adds one at most. */
  lemma StepLightens(s: State, a: Action, h: Key)
    requires Inv(s) && TearingDown(s, h) && Enabled(s, a)
    ensures Unburdened(s, a, h) ==> Lighter(s.store, Next(s, a).store, h)
    ensures Total(Next(s, a).store, h) <= Total(s.store, h) + if Unburdened(s, a, h) then 0 else 1
  {
    hide Inv, TearingDown, Next, Total, Lighter;
    if Unburdened(s, a, h) {
      QuietLightens(s, a, h);
      LighterTotal(s.store, Next(s, a).store, h);
    } else {
      BurdenAddsOne(s, a.key, a.finalizer, h);
    }
  }

  /** The phase lasts until the host is released. */
  lemma PhaseLasts(s: State, a: Action, h: Key)
    requires Inv(s) && TearingDown(s, h) && Enabled(s, a) && Held(Next(s, a).store, h)
    ensures TearingDown(Next(s, a), h)
  {
    var t := Next(s, a);
    match a {
      case Call(g, listing, changed) =>
        if g != h {
          CallOthers(s, g, listing, changed);
          CallKeepsMark(s, g, listing, changed, h);
        } else {
          assert PassShape(s.store, s.clock, h, s.passes[h]);
          CallKeepsMark(s, g, listing, changed, h);
          CallStaysTearing(s, h, listing, changed);
        }
      case _ =>
    }
  }

  lemma CallKeepsMark(s: State, g: Key, listing: seq<Key>, changed: bool, h: Key)
    requires Inv(s) && Enabled(s, Call(g, listing, changed)) && h.kind == Host
    requires Held(s.store, h) && s.store[h].marked && Held(Next(s, Call(g, listing, changed)).store, h)
    ensures Next(s, Call(g, listing, changed)).store[h].marked
  {
    hide CallStep, Unhold, Benign, EnsureWrite, PassShape;
    var t, p := Next(s, Call(g, listing, changed)), s.passes[g];
    if Mild(p.stage) {
      MildIsBenign(s, g, listing, changed);
      BenignHeld(s, t, MildTarget(g, p.stage), h);
    } else if p.stage.Writing? {
      WritingKeepsMark(s, g, listing, changed, h);
    } else {
      UnholdingEffect(s, g, listing, changed);
      if t.store != s.store {
        UnholdKeepsMark(s, t, g, UnholdTarget(g, p.stage), h);
      }
    }
  }

  lemma UnholdKeepsMark(s: State, t: State, g: Key, x: Key, h: Key)
    requires Unhold(s, t, g, x) && h in s.store && s.store[h].marked && h in t.store
    ensures t.store[h].marked
  {
    if x != h { Elsewhere(s, t, x, h); }
  }

  lemma WritingKeepsMark(s: State, g: Key, listing: seq<Key>, changed: bool, h: Key)
    requires Inv(s) && Enabled(s, Call(g, listing, changed)) && s.passes[g].stage.Writing?
    requires h.kind == Host && h in s.store && s.store[h].marked
    ensures h in Next(s, Call(g, listing, changed)).store && Next(s, Call(g, listing, changed)).store[h].marked
  {
    var p := s.passes[g];
    assert PassShape(s.store, s.clock, g, p);
    var x := NextKey(g, p.stage.pre, p.stage.k);
    var (u, ok) := Ensure(s, g, p, x, p.stage.found, changed);
    EnsureFailsQuietly(s, g, p, x, p.stage.found, changed);
    if ok {
      EnsureIsEnsureWrite(s, g, changed, u, x);
      WritingEffect(s, g, listing, changed);
      if u.store != s.store {
        CreatesOwnKinds(g, x);
        EnsureElsewhere(s, u.(clock := s.clock + 1), g, x, h);
      }
    }
  }

  lemma CallStaysTearing(s: State, h: Key, listing: seq<Key>, changed: bool)
    requires Inv(s) && Enabled(s, Call(h, listing, changed)) && Tearing(s.passes[h].stage)
    ensures var t := CallStep(s, h, listing, changed);
      h in t.passes && t.passes[h].host == s.passes[h].host && t.passes[h].before == s.passes[h].before
      && (Tearing(t.passes[h].stage) || t.passes[h].stage.Done?)
  {
    hide Inv, Ensure, Listed, Delete, Put;
  }

  // ---------- the account of one pass ----------

  /** The objects that the rest of the current deletion stage will delete. */
  function Doomed(h: Key, stage: Stage): seq<Key> {
    match stage
    case DeleteInternalHost => [Own(h, InternalHost)]
    case DeletePages(left) => left
    case DeleteTranslations(left) => left
    case DeleteDeployment => [Own(h, Deployment)]
    case _ => []
  }

  /** Since the pass began, what is left did not grow, but for the `burden` of new finalizers; an
      object it is about to delete is still live, or something was lowered meanwhile; a pass that
      deleted has lowered it. */
  ghost predicate Budget(store: Store, h: Key, p: Pass, burden: nat) {
    && Total(store, h) <= p.before + burden
    && (p.stage == Done(Deleted) ==> Total(store, h) < p.before + burden)
    && (forall key :: key in Doomed(h, p.stage) ==>
          (Live(store, key) && key in Remaining(store, h)) || Total(store, h) < p.before + burden)
  }

  lemma LighterLive(s: State, a: Action, h: Key, key: Key)
    requires Inv(s) && TearingDown(s, h) && Enabled(s, a) && Unburdened(s, a, h)
    requires Live(s.store, key) && key in Remaining(s.store, h)
    ensures var t := Next(s, a);
      (Live(t.store, key) && key in Remaining(t.store, h)) || Total(t.store, h) < Total(s.store, h)
  {
    hide Inv, TearingDown, Enabled, Next, Unburdened, Weight;
    var t := Next(s, a);
    QuietLightens(s, a, h);
    RemainingHere(s.store, h);
    RemainingHere(t.store, h);
    hide Remaining;
    if !(key in Remaining(t.store, h)) || !Live(t.store, key) {
      if key in Remaining(t.store, h) {
        MarkingLightens(s, a, key);
      }
      SumLess(s.store, Remaining(s.store, h), t.store, Remaining(t.store, h), key);
    }
  }

  lemma MildMarks(s: State, g: Key, listing: seq<Key>, changed: bool, key: Key)
    requires Inv(s) && Enabled(s, Call(g, listing, changed)) && Mild(s.passes[g].stage)
    requires Live(s.store, key) && key in Next(s, Call(g, listing, changed)).store
    requires Next(s, Call(g, listing, changed)).store[key].marked
    ensures Weight(Next(s, Call(g, listing, changed)).store[key]) < Weight(s.store[key])
  {
    hide Inv, Listed, Ensure;
  }

  lemma EnvironmentMarks(s: State, a: Action, key: Key)
    requires Enabled(s, a) && !a.Call? && Live(s.store, key) && key in Next(s, a).store
    requires Next(s, a).store[key].marked
    ensures Weight(Next(s, a).store[key]) < Weight(s.store[key])
  {
    hide Total, FirstStage;
  }

  lemma EnsureMarksNothing(s: State, g: Key, changed: bool, x: Key, key: Key)
    requires Inv(s) && g in s.passes && s.passes[g].stage.Writing?
    requires x == NextKey(g, s.passes[g].stage.pre, s.passes[g].stage.k)
    requires Live(s.store, key)
    ensures var u := Ensure(s, g, s.passes[g], x, s.passes[g].stage.found, changed).0;
            key in u.store ==> !u.store[key].marked
  {
    assert PassShape(s.store, s.clock, g, s.passes[g]);
  }

  lemma UnholdMarksNothing(s: State, t: State, g: Key, x: Key, key: Key)
    requires Unhold(s, t, g, x) && Live(s.store, key)
    ensures key in t.store ==> !t.store[key].marked
  {
    if x != key { Elsewhere(s, t, x, key); }
  }

  lemma CallMarks(s: State, g: Key, listing: seq<Key>, changed: bool, key: Key)
    requires Inv(s) && Enabled(s, Call(g, listing, changed)) && Live(s.store, key)
    requires key in Next(s, Call(g, listing, changed)).store && Next(s, Call(g, listing, changed)).store[key].marked
    ensures Weight(Next(s, Call(g, listing, changed)).store[key]) < Weight(s.store[key])
  {
    hide CallStep, Unhold, Ensure, PassShape;
    var t, p := Next(s, Call(g, listing, changed)), s.passes[g];
    if Mild(p.stage) {
      MildMarks(s, g, listing, changed, key);
    } else if p.stage.Writing? {
      WritingMarksNothing(s, g, listing, changed, key);
    } else {
      UnholdingEffect(s, g, listing, changed);
      if t.store != s.store {
        UnholdMarksNothing(s, t, g, UnholdTarget(g, p.stage), key);
      }
    }
  }

  lemma WritingMarksNothing(s: State, g: Key, listing: seq<Key>, changed: bool, key: Key)
    requires Inv(s) && Enabled(s, Call(g, listing, changed)) && Live(s.store, key) && s.passes[g].stage.Writing?
    ensures var t := Next(s, Call(g, listing, changed)); key in t.store ==> !t.store[key].marked
  {
    var p := s.passes[g];
    assert PassShape(s.store, s.clock, g, p);
    var x := NextKey(g, p.stage.pre, p.stage.k);
    EnsureFailsQuietly(s, g, p, x, p.stage.found, changed);
    EnsureMarksNothing(s, g, changed, x, key);
    WritingEffect(s, g, listing, changed);
  }

  lemma MarkingLightens(s: State, a: Action, key: Key)
    requires Inv(s) && Enabled(s, a) && Live(s.store, key) && key in Next(s, a).store
    requires Next(s, a).store[key].marked
    ensures Weight(Next(s, a).store[key]) < Weight(s.store[key])
  {
    if a.Call? {
      CallMarks(s, a.h, a.listing, a.changed, key);
    } else {
      EnvironmentMarks(s, a, key);
    }
  }

  lemma BudgetKept(s: State, a: Action, h: Key, burden: nat)
    requires Inv(s) && TearingDown(s, h) && Enabled(s, a) && Unburdened(s, a, h)
    requires h in s.passes && Budget(s.store, h, s.passes[h], burden)
    ensures Budget(Next(s, a).store, h, s.passes[h], burden)
  {
    var t, p := Next(s, a), s.passes[h];
    QuietLightens(s, a, h);
    LighterTotal(s.store, t.store, h);
    forall key | key in Doomed(h, p.stage)
      ensures (Live(t.store, key) && key in Remaining(t.store, h)) || Total(t.store, h) < p.before + burden
    {
      if Live(s.store, key) && key in Remaining(s.store, h) {
        LighterLive(s, a, h, key);
      }
    }
  }

  /** The pass's own call: what it lists is live, and what it deletes no longer is. */
  lemma CallKeepsBudget(s: State, h: Key, listing: seq<Key>, changed: bool, burden: nat)
    requires Inv(s) && TearingDown(s, h) && Enabled(s, Call(h, listing, changed))
    requires Budget(s.store, h, s.passes[h], burden)
    ensures var t := Next(s, Call(h, listing, changed)); h in t.passes && Budget(t.store, h, t.passes[h], burden)
  {
    var t, p := Next(s, Call(h, listing, changed)), s.passes[h];
    BudgetKept(s, Call(h, listing, changed), h, burden);
    CallStaysTearing(s, h, listing, changed);
    if Doomed(h, p.stage) != [] {
      DeletionSpends(s, h, listing, changed, burden);
    } else {
      ListingIsLive(s, h, listing, changed);
    }
  }

  lemma DeletionSpends(s: State, h: Key, listing: seq<Key>, changed: bool, burden: nat)
    requires Inv(s) && TearingDown(s, h) && Enabled(s, Call(h, listing, changed))
    requires Budget(s.store, h, s.passes[h], burden) && Doomed(h, s.passes[h].stage) != []
    requires Budget(Next(s, Call(h, listing, changed)).store, h, s.passes[h], burden)
    ensures var t, p := Next(s, Call(h, listing, changed)), s.passes[h];
      && h in t.passes && t.passes[h].before == p.before
      && (forall key :: key in Doomed(h, t.passes[h].stage) ==> key in Doomed(h, p.stage))
      && (t.passes[h].stage == Done(Failed) || Total(t.store, h) < p.before + burden)
  {
    var t, p := Next(s, Call(h, listing, changed)), s.passes[h];
    var key := Doomed(h, p.stage)[0];
    CallStaysTearing(s, h, listing, changed);
    DeletionEffect(s, h, listing, changed);
    if key in s.store && Live(s.store, key) && key in Remaining(s.store, h) {
      LighterLive(s, Call(h, listing, changed), h, key);
    }
  }

  lemma DeletionEffect(s: State, h: Key, listing: seq<Key>, changed: bool)
    requires h in s.passes && Doomed(h, s.passes[h].stage) != []
    ensures var t, key := CallStep(s, h, listing, changed), Doomed(h, s.passes[h].stage)[0];
      && h in t.passes
      && (forall k :: k in Doomed(h, t.passes[h].stage) ==> k in Doomed(h, s.passes[h].stage))
      && (key !in s.store ==> t.passes[h].stage == Done(Failed))
      && !Live(t.store, key)
  {
    hide Listed, Ensure;
  }

  lemma ListingIsLive(s: State, h: Key, listing: seq<Key>, changed: bool)
    requires Inv(s) && TearingDown(s, h) && Enabled(s, Call(h, listing, changed))
    requires Doomed(h, s.passes[h].stage) == []
    ensures var t := Next(s, Call(h, listing, changed));
      && h in t.passes && t.passes[h].stage != Done(Deleted)
      && (forall key :: key in Doomed(h, t.passes[h].stage) ==>
            Live(s.store, key) && key in Remaining(s.store, h) && t.store == s.store)
  {
    hide Inv, Ensure, Delete, Put, Listed;
  }

  // ---------- theorems ----------

  /** `run[i..j]` is spent tearing down `h`. */
  ghost predicate Phase(run: seq<State>, i: nat, j: nat, h: Key) {
    && IsRun(run) && i <= j < |run|
    && forall k :: i <= k <= j ==> TearingDown(run[k], h)
  }

  /** The step ends a pass that deleted something. */
  ghost predicate Productive(s: State, t: State, h: Key) {
    h in s.passes && s.passes[h].stage == Done(Deleted) && h !in t.passes
  }

  ghost function ProductivePasses(run: seq<State>, i: nat, j: nat, h: Key): nat
    requires i <= j < |run|
  {
    if i == j then 0
    else ProductivePasses(run, i, j - 1, h) + if Productive(run[j - 1], run[j], h) then 1 else 0
  }

  /** The step puts a finalizer on something that teardown waits for. */
  ghost predicate Burdening(s: State, t: State, h: Key) {
    exists key, finalizer ::
      Enabled(s, AddForeign(key, finalizer)) && t == Next(s, AddForeign(key, finalizer)) && key in Remaining(s.store, h)
  }

  ghost function Burden(s: State, t: State, h: Key): nat {
    if Burdening(s, t, h) then 1 else 0
  }

  ghost function Burdens(run: seq<State>, i: nat, j: nat, h: Key): nat
    requires i <= j < |run|
  {
    if i == j then 0 else Burdens(run, i, j - 1, h) + Burden(run[j - 1], run[j], h)
  }

  /** The burdens since the pass in flight began. */
  ghost function PassBurdens(run: seq<State>, i: nat, j: nat, h: Key): nat
    requires i <= j < |run|
  {
    if i == j || h !in run[j].passes || h !in run[j - 1].passes then 0
    else PassBurdens(run, i, j - 1, h) + Burden(run[j - 1], run[j], h)
  }

  ghost function Left(s: State, h: Key, burden: nat): nat {
    if h in s.passes then s.passes[h].before + burden else Total(s.store, h)
  }

  ghost function Later(s: State, t: State, h: Key, burden: nat): nat {
    if h !in s.passes || h !in t.passes then 0 else burden + Burden(s, t, h)
  }

  lemma StepKeepsAccount(s: State, a: Action, h: Key, burden: nat)
    requires Inv(s) && TearingDown(s, h) && Enabled(s, a)
    requires h in s.passes ==> Budget(s.store, h, s.passes[h], burden)
    ensures var t := Next(s, a); var later := Later(s, t, h, burden);
      && (h in t.passes ==> Budget(t.store, h, t.passes[h], later))
      && Left(t, h, later) + (if Productive(s, t, h) then 1 else 0) <= Left(s, h, burden) + Burden(s, t, h)
  {
    hide Inv, TearingDown, Budget, Productive, Left, Total;
    if Burdening(s, Next(s, a), h) {
      var key, finalizer :| Enabled(s, AddForeign(key, finalizer)) && Next(s, a) == Next(s, AddForeign(key, finalizer))
                            && key in Remaining(s.store, h);
      BurdenKeepsAccount(s, key, finalizer, h, burden);
    } else {
      QuietOrBurdening(s, a, h);
      QuietKeepsAccount(s, a, h, burden);
      KeptBudget(s, Next(s, a), h, burden);
    }
  }

  lemma QuietOrBurdening(s: State, a: Action, h: Key)
    requires Enabled(s, a)
    ensures Unburdened(s, a, h) || Burdening(s, Next(s, a), h)
  {
    if a.AddForeign? && a.key in Remaining(s.store, h) {
      assert Enabled(s, AddForeign(a.key, a.finalizer));
    }
  }

  lemma BurdenKeepsAccount(s: State, key: Key, finalizer: string, h: Key, burden: nat)
    requires Enabled(s, AddForeign(key, finalizer)) && key in Remaining(s.store, h)
    requires h in s.passes ==> Budget(s.store, h, s.passes[h], burden)
    ensures var t := Next(s, AddForeign(key, finalizer));
      && t.passes == s.passes
      && (h in t.passes ==> Budget(t.store, h, t.passes[h], burden + 1))
      && Left(t, h, if h in s.passes then burden + 1 else 0) <= Left(s, h, burden) + 1 && !Productive(s, t, h)
  {
    hide Total, Live, Remaining;
    BurdenAddsOne(s, key, finalizer, h);
    BurdenLeavesRest(s, key, finalizer, h);
  }

  /** A pass that has just begun carries no burden. */
  lemma KeptBudget(s: State, t: State, h: Key, burden: nat)
    requires h !in s.passes && h in t.passes ==> t.passes[h].before == Total(s.store, h) && t.store == s.store
                                                 && t.passes[h].stage == GetInternalHost
    ensures h !in s.passes && h in t.passes ==> Budget(t.store, h, t.passes[h], 0)
  {
  }

  lemma QuietKeepsAccount(s: State, a: Action, h: Key, burden: nat)
    requires Inv(s) && TearingDown(s, h) && Enabled(s, a) && Unburdened(s, a, h)
    requires h in s.passes ==> Budget(s.store, h, s.passes[h], burden)
    ensures var t := Next(s, a);
      && (h in s.passes && h in t.passes ==> Budget(t.store, h, t.passes[h], burden))
      && (h !in s.passes && h in t.passes ==>
            t.passes[h].before == Total(s.store, h) && t.store == s.store && t.passes[h].stage == GetInternalHost)
      && Left(t, h, if h in s.passes && h in t.passes then burden else 0) + (if Productive(s, t, h) then 1 else 0)
         <= Left(s, h, burden)
  {
    hide Inv, TearingDown, Enabled, Next, Unburdened, Total, Budget;
    QuietLightens(s, a, h);
    LighterTotal(s.store, Next(s, a).store, h);
    if a.Call? && a.h == h {
      OwnCallKeepsAccount(s, h, a.listing, a.changed, burden);
    } else {
      OtherStepKeepsAccount(s, a, h, burden);
    }
  }

  lemma OwnCallKeepsAccount(s: State, h: Key, listing: seq<Key>, changed: bool, burden: nat)
    requires Inv(s) && TearingDown(s, h) && Enabled(s, Call(h, listing, changed))
    requires h in s.passes ==> Budget(s.store, h, s.passes[h], burden)
    ensures var t := Next(s, Call(h, listing, changed));
      && h in s.passes && h in t.passes && Budget(t.store, h, t.passes[h], burden)
      && Left(t, h, burden) == Left(s, h, burden)
  {
    CallKeepsBudget(s, h, listing, changed, burden);
    CallStaysTearing(s, h, listing, changed);
  }

  lemma OtherStepKeepsAccount(s: State, a: Action, h: Key, burden: nat)
    requires Inv(s) && TearingDown(s, h) && Enabled(s, a) && Unburdened(s, a, h)
    requires h in s.passes ==> Budget(s.store, h, s.passes[h], burden)
    requires !(a.Call? && a.h == h) && Total(Next(s, a).store, h) <= Total(s.store, h)
    ensures var t := Next(s, a);
      && (h in s.passes && h in t.passes ==> Budget(t.store, h, t.passes[h], burden))
      && (h !in s.passes && h in t.passes ==>
            t.passes[h].before == Total(s.store, h) && t.store == s.store && t.passes[h].stage == GetInternalHost)
      && Left(t, h, if h in s.passes && h in t.passes then burden else 0) + (if Productive(s, t, h) then 1 else 0)
         <= Left(s, h, burden)
  {
    hide Inv, Enabled, Next, Unburdened, Total, Live, Remaining;
    if h in s.passes { BudgetKept(s, a, h, burden); }
    PassMoves(s, a, h);
  }

  /** What a step other than a call of the pass does to it: nothing, or it begins, fails, or ends it. */
  lemma PassMoves(s: State, a: Action, h: Key)
    requires Enabled(s, a) && !(a.Call? && a.h == h) && TearingDown(s, h)
    ensures var t := Next(s, a);
      || ((h in t.passes <==> h in s.passes) && (h in s.passes ==> t.passes[h] == s.passes[h]))
      || (h !in s.passes && h in t.passes && t.store == s.store
            && t.passes[h].before == Total(s.store, h) && t.passes[h].stage == GetInternalHost)
      || (h in s.passes && h in t.passes && t.passes[h] == s.passes[h].(stage := Done(Failed)))
      || (h in s.passes && h !in t.passes)
  {
    hide CallStep, Total;
    if a.Call? { CallOthers(s, a.h, a.listing, a.changed); }
  }

  /** Productive passes are paid for by what was left at the start of the phase and by the burdens
      put on it since. */
  ghost predicate PaidFor(run: seq<State>, i: nat, j: nat, h: Key)
    requires i <= j < |run|
  {
    var burden := PassBurdens(run, i, j, h);
    && (h in run[j].passes ==> Budget(run[j].store, h, run[j].passes[h], burden))
    && ProductivePasses(run, i, j, h) + Left(run[j], h, burden) <= Total(run[i].store, h) + Burdens(run, i, j, h)
  }

  lemma {:induction false} PhaseAccount(run: seq<State>, i: nat, j: nat, h: Key)
    requires Phase(run, i, j, h) && h !in run[i].passes
    ensures PaidFor(run, i, j, h)
    decreases j
  {
    hide Budget, TearingDown, IsRun, Total, PaidFor;
    if i == j {
      NothingSpent(run, i, h);
    } else {
      var a := PhaseShorter(run, i, j, h);
      PhaseAccount(run, i, j - 1, h);
      RunKeepsInv(run, j - 1);
      AccountStep(run, i, j, h, a);
    }
  }

  lemma AccountStep(run: seq<State>, i: nat, j: nat, h: Key, a: Action)
    requires i < j < |run| && PaidFor(run, i, j - 1, h) && Inv(run[j - 1]) && TearingDown(run[j - 1], h)
    requires Enabled(run[j - 1], a) && run[j] == Next(run[j - 1], a) && h !in run[i].passes
    ensures PaidFor(run, i, j, h)
  {
    hide Budget, TearingDown, Inv, Enabled, Next, Productive, Left, Total, Burden;
    StepKeepsAccount(run[j - 1], a, h, PassBurdens(run, i, j - 1, h));
    OneMore(run, i, j, h);
  }

  lemma NothingSpent(run: seq<State>, i: nat, h: Key)
    requires i < |run| && h !in run[i].passes
    ensures PaidFor(run, i, i, h)
  {
  }

  lemma OneMore(run: seq<State>, i: nat, j: nat, h: Key)
    requires i < j < |run|
    ensures ProductivePasses(run, i, j, h)
         == ProductivePasses(run, i, j - 1, h) + if Productive(run[j - 1], run[j], h) then 1 else 0
    ensures Burdens(run, i, j, h) == Burdens(run, i, j - 1, h) + Burden(run[j - 1], run[j], h)
    ensures PassBurdens(run, i, j, h) == Later(run[j - 1], run[j], h, PassBurdens(run, i, j - 1, h))
  {
  }

  lemma PhaseShorter(run: seq<State>, i: nat, j: nat, h: Key) returns (a: Action)
    requires Phase(run, i, j, h) && i < j
    ensures Phase(run, i, j - 1, h) && TearingDown(run[j - 1], h)
    ensures Enabled(run[j - 1], a) && run[j] == Next(run[j - 1], a)
  {
    assert Follows(run[j - 1], run[j - 1 + 1]);
    a :| Enabled(run[j - 1], a) && run[j] == Next(run[j - 1], a);
  }

  /** Teardown needs boundedly many productive passes, however many pages and translations there
      are and whatever others do meanwhile: no more than the weight of what was there to begin
      with, plus one for each time that somebody puts a finalizer on what is left. */
  lemma TeardownIsBounded(run: seq<State>, i: nat, j: nat, h: Key)
    requires Phase(run, i, j, h) && h !in run[i].passes
    ensures i <= j && ProductivePasses(run, i, j, h) <= Total(run[i].store, h) + Burdens(run, i, j, h)
    ensures h !in run[j].passes ==>
      ProductivePasses(run, i, j, h) + Total(run[j].store, h) <= Total(run[i].store, h) + Burdens(run, i, j, h)
  {
    PhaseAccount(run, i, j, h);
  }

  /** The objects of one teardown stage. */
  function StageObjects(store: Store, h: Key, rank: nat): set<Key> {
    match rank
    case 0 => set key | key in {Own(h, InternalHost)} && key in store
    case 1 => Listed(store, h, InternalPage)
    case 2 => Listed(store, h, InternalTranslation)
    case 3 => set key | key in {Own(h, Deployment)} && key in store
    case _ => {}
  }

  /** The first stage with anything left holds only terminating objects. */
  ghost predicate OnlyWaiting(store: Store, h: Key, rank: nat) {
    && (forall r: nat :: r < rank ==> StageObjects(store, h, r) == {})
    && StageObjects(store, h, rank) != {}
    && forall key :: key in StageObjects(store, h, rank) ==> !Live(store, key)
  }

  lemma WaitingIsWarranted(s: State, h: Key, listing: seq<Key>, changed: bool)
    requires Inv(s) && Enabled(s, Call(h, listing, changed)) && Tearing(s.passes[h].stage)
    requires CallStep(s, h, listing, changed).passes[h].stage == Done(Waited)
    ensures OnlyWaiting(s.store, h, Rank(s.passes[h].stage))
  {
    var p := s.passes[h];
    assert PassShape(s.store, s.clock, h, p);
    assert Cleared(s.store, h, Rank(p.stage));
    ClearedStages(s.store, h, Rank(p.stage));
    WaitedAt(s, h, listing, changed);
  }

  lemma ClearedStages(store: Store, h: Key, rank: nat)
    requires Cleared(store, h, rank)
    ensures forall r: nat :: r < rank ==> StageObjects(store, h, r) == {}
  {
    if rank >= 1 { assert StageObjects(store, h, 0) == {}; }
    if rank >= 4 { assert StageObjects(store, h, 3) == {}; }
  }

  lemma WaitedAt(s: State, h: Key, listing: seq<Key>, changed: bool)
    requires Enabled(s, Call(h, listing, changed)) && Tearing(s.passes[h].stage)
    requires CallStep(s, h, listing, changed).passes[h].stage == Done(Waited)
    ensures var rank := Rank(s.passes[h].stage);
      && StageObjects(s.store, h, rank) != {}
      && forall key :: key in StageObjects(s.store, h, rank) ==> !Live(s.store, key)
  {
    hide Ensure, Delete, Put;
    var p := s.passes[h];
    if p.stage.GetInternalHost? {
      assert Own(h, InternalHost) in StageObjects(s.store, h, 0);
    } else if p.stage.GetDeployment? {
      assert Own(h, Deployment) in StageObjects(s.store, h, 3);
    } else {
      forall key | key in StageObjects(s.store, h, Rank(p.stage)) && key in s.store ensures !Live(s.store, key) {
        assert key !in listing;
      }
    }
  }

  lemma CallEnds(s: State, h: Key, listing: seq<Key>, changed: bool)
    requires h in s.passes && Tearing(s.passes[h].stage)
    ensures var t := CallStep(s, h, listing, changed);
      h in t.passes && t.passes[h].stage.Done? ==>
        && t.passes[h].stage.outcome in {Deleted, Waited, Released, Failed}
        && (t.passes[h].stage.outcome == Released ==> s.passes[h].stage.Release?)
  {
    hide Ensure, Delete, Put, Listed;
  }

  /** Every pass of the phase that ends without an error has lowered what is left, finalizers put on
      it meanwhile aside, or waits for a first non-empty stage that is wholly terminating, or
      releases the host, of which then nothing is left. */
  lemma PassMakesProgress(run: seq<State>, i: nat, j: nat, h: Key, listing: seq<Key>, changed: bool)
    requires Phase(run, i, j, h) && h !in run[i].passes
    requires h in run[j].passes && Tearing(run[j].passes[h].stage)
    requires Enabled(run[j], Call(h, listing, changed))
    ensures var s, t := run[j], Next(run[j], Call(h, listing, changed));
      h in t.passes && (t.passes[h].stage.Done? && t.passes[h].stage.outcome != Failed ==>
        || (t.passes[h].stage.outcome == Deleted
              && i <= j && Total(t.store, h) < t.passes[h].before + PassBurdens(run, i, j, h))
        || (t.passes[h].stage.outcome == Waited && OnlyWaiting(s.store, h, Rank(s.passes[h].stage)))
        || (t.passes[h].stage.outcome == Released && TornDown(s.store, h)))
  {
    var s := run[j];
    PhaseAccount(run, i, j, h);
    RunKeepsInv(run, j);
    CallKeepsBudget(s, h, listing, changed, PassBurdens(run, i, j, h));
    CallEnds(s, h, listing, changed);
    var t := Next(s, Call(h, listing, changed));
    if t.passes[h].stage == Done(Waited) {
      WaitingIsWarranted(s, h, listing, changed);
    }
    if t.passes[h].stage == Done(Released) {
      assert PassShape(s.store, s.clock, h, s.passes[h]);
      ClearedIsTornDown(s.store, h);
    }
  }

  lemma ClearedIsTornDown(store: Store, h: Key)
    requires Cleared(store, h, 6) && h.name != ""
    ensures TornDown(store, h)
  {
    forall key | key in store && key.kind in {InternalPage, InternalTranslation} && key.ns == h.ns
      ensures store[key].hostRef != h.name
    {
      assert key !in Listed(store, h, key.kind);
    }
  }
}
