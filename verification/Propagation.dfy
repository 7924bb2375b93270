/** Once outside events stop, propagation terminates under every schedule. Outside events are those
    of users and timers and the changes of the objects that hosts own, which `HostResources` covers. */
module Propagation {
  import opened Options
  import opened Objects
  import opened Needs
  import opened Readiness
  import opened Evaluation
  import opened Agreement

  /** The steps of the passes themselves: no user, no timer, and no change of an owned object, be it
      by the host's own pass. */
  predicate Internal(a: Action) {
    a.Admit? || a.Begin? || a.Read? || a.Finish?
  }

  ghost predicate Propagates(s: State, t: State) {
    exists a :: Internal(a) && Enabled(s, a) && t == Next(s, a)
  }

  // ---------- the measure ----------

  /** The recorded status is not the one that is due. */
  ghost predicate Behind(store: Store, id: Id) {
    id in store && id.kind.base != Secret && store[id].status != Due(store, id)
  }

  /** The pass in flight is heading for a status that is no longer due. */
  ghost predicate Astray(s: State, id: Id)
    requires id in s.passes
  {
    || id !in s.store || s.store[id].rv != s.passes[id].start.rv
    || Expected(s.store, id, s.passes[id]) != Due(s.store, id)
  }

  ghost function Weight(s: State, id: Id): nat {
    (if Behind(s.store, id) then 2 else 0)
    + (if id in s.queue then 2 else 0)
    + (if id in s.passes then (if Astray(s, id) then 5 else 1) else 0)
    + (if id in s.store && !s.store[id].held then 3 else 0)
  }

  ghost function LevelWeight(s: State, ids: seq<Id>, level: nat): nat {
    if ids == [] then 0
    else (if Level(ids[0].kind.base) == level then Weight(s, ids[0]) else 0) + LevelWeight(s, ids[1..], level)
  }

  /** The lookups left, counting a page's archetype as more than all the rest. */
  ghost function Unopened(s: State, ids: seq<Id>): nat {
    if ids == [] then 0
    else (if ids[0] in s.passes && !Finished(s.passes[ids[0]]) && !s.passes[ids[0]].complete then 1 else 0)
         + Unopened(s, ids[1..])
  }

  ghost function Lookups(s: State, ids: seq<Id>): nat {
    if ids == [] then 0
    else (if ids[0] in s.passes && !Finished(s.passes[ids[0]]) then |s.passes[ids[0]].todo| else 0)
         + Lookups(s, ids[1..])
  }

  ghost predicate Covers(ids: seq<Id>, s: State) {
    forall id :: id in s.store || id in s.queue || id in s.passes ==> id in ids
  }

  // ---------- sums ----------

  lemma {:induction false} LevelWeightAtMost(s: State, t: State, ids: seq<Id>, level: nat)
    requires forall id :: id in ids && Level(id.kind.base) == level ==> Weight(t, id) <= Weight(s, id)
    ensures LevelWeight(t, ids, level) <= LevelWeight(s, ids, level)
  {
    if ids != [] {
      LevelWeightAtMost(s, t, ids[1..], level);
    }
  }

  lemma {:induction false} LevelWeightLess(s: State, t: State, ids: seq<Id>, level: nat, x: Id)
    requires forall id :: id in ids && Level(id.kind.base) == level ==> Weight(t, id) <= Weight(s, id)
    requires x in ids && Level(x.kind.base) == level && Weight(t, x) < Weight(s, x)
    ensures LevelWeight(t, ids, level) < LevelWeight(s, ids, level)
  {
    if ids[0] == x {
      LevelWeightAtMost(s, t, ids[1..], level);
    } else {
      LevelWeightLess(s, t, ids[1..], level, x);
    }
  }

  lemma {:induction false} LookupsLess(s: State, t: State, ids: seq<Id>, x: Id)
    requires x in s.passes && !Finished(s.passes[x]) && x in t.passes
    requires forall id :: id != x ==> (id in s.passes <==> id in t.passes)
    requires forall id :: id != x && id in s.passes ==> s.passes[id] == t.passes[id]
    requires Finished(t.passes[x]) || t.passes[x].complete
    requires s.passes[x].complete ==> Finished(t.passes[x]) || |t.passes[x].todo| < |s.passes[x].todo|
    ensures Unopened(t, ids) <= Unopened(s, ids)
    ensures x in ids ==>
      if s.passes[x].complete then Unopened(t, ids) == Unopened(s, ids) && Lookups(t, ids) < Lookups(s, ids)
      else Unopened(t, ids) < Unopened(s, ids)
    ensures s.passes[x].complete ==> Unopened(t, ids) == Unopened(s, ids) && Lookups(t, ids) <= Lookups(s, ids)
  {
    if ids != [] {
      LookupsLess(s, t, ids[1..], x);
    }
  }

  // ---------- what a status write leaves alone ----------

  /** The stores agree on everything below the level of `id`, and on its own oracle. */
  ghost predicate SameBelow(store: Store, store': Store, id: Id) {
    && (id in store <==> id in store') && (id in store ==> store[id].up == store'[id].up)
    && forall x: Id :: Level(x.kind.base) < Level(id.kind.base) ==> SameFace(store, store', x)
  }

  lemma SameObservation(store: Store, store': Store, id: Id, n: Need)
    requires SameBelow(store, store', id) && Below(id, n)
    ensures Observe(store, id, n) == Observe(store', id, n)
  {
    if n.target.Some? {
      assert SameFace(store, store', n.target.value);
    }
  }

  lemma {:induction false} SameEval(store: Store, store': Store, id: Id, todo: seq<Entry>,
                                    attrs: map<string, nat>, got: map<string, nat>)
    requires SameBelow(store, store', id)
    requires forall n :: n in NeedsOf(todo) ==> Below(id, n)
    ensures Eval(store, id, todo, attrs, got) == Eval(store', id, todo, attrs, got)
  {
    if todo != [] {
      TailNeeds(todo);
      SameObservation(store, store', id, todo[0].need);
      var r := Look(store, id, todo[0], attrs, got);
      SameEval(store, store', id, todo[1..], r.attrs, r.got);
    }
  }

  lemma SameExpected(store: Store, store': Store, id: Id, p: Pass, clock: nat)
    requires SameBelow(store, store', id) && PassShape(id, p, clock)
    requires forall x :: x in store ==> WellFormed(x, store[x].spec)
    ensures Expected(store, id, p) == Expected(store', id, p)
  {
    if Finished(p) {
    } else if p.complete {
      SameEval(store, store', id, p.todo, p.attrs, p.got);
    } else {
      TailNeeds(p.todo);
      var n := p.todo[0].need;
      assert Below(id, n);
      SameObservation(store, store', id, n);
      var q := Consume(p, Observe(store, id, n), 0);
      if !q.failed {
        assert SameFace(store, store', n.target.value);
        assert Inherited(store, p) == Inherited(store', p);
        var names := SomeOrder(MergedNavs(store, p).Keys);
        InheritedFits(store, id, p);
        OpenedPlanBelow(id, p.start.spec, n.target.value, Inherited(store, p), names);
        SameEval(store, store', id, PagePlan(id, p.start.spec, Inherited(store, p), names), q.attrs, q.got);
      }
    }
  }

  lemma SameDue(store: Store, store': Store, id: Id)
    requires id in store && id in store' && id.kind.base != Secret && SameBelow(store, store', id)
    requires forall x :: x in store ==> WellFormed(x, store[x].spec)
    requires store[id].spec == store'[id].spec && store[id].gen == store'[id].gen
    requires store[id].status.attrs == store'[id].status.attrs
    ensures Due(store, id) == Due(store', id)
  {
    var names := SomeOrder(NavsOf(store[id].spec).Keys);
    var p, p' := StartPass(id, store[id], names, 0), StartPass(id, store'[id], names, 0);
    StartShape(id, store[id], names, store[id].rv + 1);
    SameExpected(store, store', id, p, store[id].rv + 1);
    SameButStart(store', id, p, p');
  }

  lemma SameButStart(store: Store, id: Id, p: Pass, p': Pass)
    requires p'.todo == p.todo && p'.complete == p.complete && p'.failed == p.failed
    requires p'.attrs == p.attrs && p'.got == p.got
    requires p'.start.gen == p.start.gen && p'.start.spec == p.start.spec
    ensures Expected(store, id, p) == Expected(store, id, p')
  {
    hide Eval, Observe, PagePlan;
  }

  // ---------- the status that is due is a fixed point ----------

  lemma FullPlanBelow(store: Store, id: Id)
    requires id in store && id.kind.base != Secret
    requires forall x :: x in store ==> WellFormed(x, store[x].spec)
    ensures forall n :: n in NeedsOf(FullPlan(store, id)) ==> Below(id, n)
  {
    var spec := store[id].spec;
    var names := SomeOrder(NavsOf(spec).Keys);
    var p := StartPass(id, store[id], names, 0);
    StartShape(id, store[id], names, store[id].rv + 1);
    if spec.PageSpec? && Holds(store, id, p.todo[0].need) {
      InheritedFits(store, id, p);
      var inherited := Inherited(store, p);
      var names' := SomeOrder((inherited + spec.navs).Keys);
      OpenedPlanBelow(id, spec, p.todo[0].need.target.value, inherited, names');
      ConcatNeeds(p.todo, PagePlan(id, spec, inherited, names'));
    }
  }

  /** Recording the due status makes it the recorded one for good. */
  lemma DueIdempotent(store: Store, store': Store, id: Id)
    requires id in store && id in store' && id.kind.base != Secret && SameBelow(store, store', id)
    requires forall x :: x in store ==> WellFormed(x, store[x].spec)
    requires store'[id].spec == store[id].spec && store'[id].gen == store[id].gen
    requires store'[id].status == Due(store, id)
    ensures Due(store', id) == Due(store, id)
  {
    var plan, attrs := FullPlan(store, id), store[id].status.attrs;
    DueIsEval(store, id);
    DueIsEval(store', id);
    FullPlanBelow(store, id);
    SamePlan(store, store', id);
    EvalIdempotent(store, id, plan, attrs);
    SameEval(store, store', id, plan, store'[id].status.attrs, map[]);
  }

  lemma SamePlan(store: Store, store': Store, id: Id)
    requires id in store && id in store' && id.kind.base != Secret && SameBelow(store, store', id)
    requires store'[id].spec == store[id].spec && WellFormed(id, store[id].spec)
    ensures FullPlan(store', id) == FullPlan(store, id)
  {
    var spec := store[id].spec;
    if spec.PageSpec? {
      var n := RefNeed(id, spec.archetype);
      assert Below(id, n) by {
        DirectNeedsBelow(id, spec, n);
      }
      SameObservation(store, store', id, n);
      if n.target.Some? {
        assert SameFace(store, store', n.target.value);
      }
    }
  }

  // ---------- each step lowers the measure ----------

  lemma NotRaised(s: State, x: Id, id: Id)
    requires StoreShape(s.store, s.clock) && Level(id.kind.base) <= Level(x.kind.base) && id != x
    ensures id !in Notified(s.store, x)
  {
    if id in s.store {
      var spec := s.store[id].spec;
      var watched := Watched(id, spec);
      if x in watched {
        var n :| n in DirectNeeds(id, spec) && n.target == Some(x);
        DirectNeedsBelow(id, spec, n);
      }
    }
  }

  lemma NeighbourFrame(s: State, a: Action, id: Id)
    requires Inv(s) && Internal(a) && Enabled(s, a)
    requires id != a.id && Level(id.kind.base) <= Level(a.id.kind.base)
    ensures var t := Next(s, a);
      && SameBelow(s.store, t.store, id)
      && (id in s.store <==> id in t.store) && (id in s.store ==> t.store[id] == s.store[id])
      && (id in t.queue <==> id in s.queue)
  {
    var t := Next(s, a);
    StepLocal(s, a);
    StoreShapeKept(s, a);
    forall x | x != a.id ensures SameFace(s.store, t.store, x) && (x in s.store ==> t.store[x] == s.store[x]) {
      AwayFrom(s.store, t.store, a.id, x);
    }
    NotRaised(t, a.id, id);
  }

  /** A step at one object leaves the weight of every other object on its level or below. */
  lemma NeighbourWeight(s: State, a: Action, id: Id)
    requires Inv(s) && Internal(a) && Enabled(s, a)
    requires id != a.id && Level(id.kind.base) <= Level(a.id.kind.base)
    ensures Weight(Next(s, a), id) == Weight(s, id)
  {
    var t := Next(s, a);
    NeighbourFrame(s, a, id);
    StepLocal(s, a);
    if id in s.passes {
      assert PassShape(id, s.passes[id], s.clock);
      SameExpected(s.store, t.store, id, s.passes[id], s.clock);
    }
    if id.kind.base != Secret && id in s.store {
      SameDue(s.store, t.store, id);
    }
  }

  lemma BeginLowers(s: State, id: Id, names: seq<string>)
    requires Inv(s) && Enabled(s, Begin(id, names))
    ensures Weight(Next(s, Begin(id, names)), id) < Weight(s, id)
  {
    if id in s.store {
      StartExpectsDue(s.store, id, names, s.clock);
    }
  }

  lemma AdmitLowers(s: State, id: Id, recorded: bool)
    requires Inv(s) && Enabled(s, Admit(id, recorded))
    ensures Weight(Next(s, Admit(id, recorded)), id) < Weight(s, id)
  {
  }

  lemma ReadKeepsWeight(s: State, id: Id, names: seq<string>)
    requires Inv(s) && Enabled(s, Read(id, names))
    ensures Weight(Next(s, Read(id, names)), id) == Weight(s, id)
  {
    ReadKeepsExpected(s, id, names);
  }

  lemma FinishLowers(s: State, id: Id)
    requires Inv(s) && Enabled(s, Finish(id))
    ensures Weight(Next(s, Finish(id)), id) < Weight(s, id)
  {
    var t, p := Next(s, Finish(id)), s.passes[id];
    assert PassShape(id, p, s.clock);
    if id in s.store && s.store[id].rv == p.start.rv {
      StepLocal(s, Finish(id));
      forall x ensures x != id ==> SameFace(s.store, t.store, x) {
        if x != id { AwayFrom(s.store, t.store, id, x); }
      }
      if Outcome(p) == s.store[id].status {
        SameDue(s.store, t.store, id);
      } else if !Astray(s, id) {
        DueIdempotent(s.store, t.store, id);
      }
    }
  }

  lemma ReadElsewhere(s: State, id: Id, names: seq<string>, other: Id)
    requires Enabled(s, Read(id, names)) && other != id
    ensures Weight(Next(s, Read(id, names)), other) == Weight(s, other)
  {
    hide Due, Expected;
  }

  lemma LevelsNotRaised(s: State, a: Action, ids: seq<Id>, level: nat)
    requires Inv(s) && Internal(a) && Enabled(s, a)
    requires level <= Level(a.id.kind.base) || a.Read?
    ensures LevelWeight(Next(s, a), ids, level) <= LevelWeight(s, ids, level)
    ensures !a.Read? && level == Level(a.id.kind.base) && a.id in ids ==>
      LevelWeight(Next(s, a), ids, level) < LevelWeight(s, ids, level)
  {
    hide Inv, Weight, Enabled;
    var t := Next(s, a);
    match a {
      case Begin(id, names) => BeginLowers(s, id, names);
      case Admit(id, recorded) => AdmitLowers(s, id, recorded);
      case Finish(id) => FinishLowers(s, id);
      case Read(id, names) => ReadKeepsWeight(s, id, names);
      case _ =>
    }
    forall id: Id | Level(id.kind.base) == level ensures Weight(t, id) <= Weight(s, id) {
      if id != a.id {
        if a.Read? {
          ReadElsewhere(s, a.id, a.names, id);
        } else {
          NeighbourWeight(s, a, id);
        }
      }
    }
    if !a.Read? && level == Level(a.id.kind.base) && a.id in ids {
      LevelWeightLess(s, t, ids, level, a.id);
    } else {
      LevelWeightAtMost(s, t, ids, level);
    }
  }

  lemma ReadLowersLookups(s: State, id: Id, names: seq<string>, ids: seq<Id>)
    requires Inv(s) && Enabled(s, Read(id, names)) && id in ids
    ensures var t := Next(s, Read(id, names));
      if s.passes[id].complete then Unopened(t, ids) == Unopened(s, ids) && Lookups(t, ids) < Lookups(s, ids)
      else Unopened(t, ids) < Unopened(s, ids)
  {
    LookupsLess(s, Next(s, Read(id, names)), ids, id);
  }

  lemma StepStaysCovered(s: State, a: Action, ids: seq<Id>)
    requires Inv(s) && Internal(a) && Enabled(s, a) && Covers(ids, s)
    ensures Covers(ids, Next(s, a)) && a.id in ids
  {
  }

  lemma StepOf(s: State, t: State) returns (a: Action)
    requires Propagates(s, t)
    ensures Internal(a) && Enabled(s, a) && t == Next(s, a)
  {
    a :| Internal(a) && Enabled(s, a) && t == Next(s, a);
  }

  /** Steps of the controllers alone cannot go on forever, whoever is scheduled when. */
  lemma {:induction false} ScheduleEnds(run: nat -> State, k: nat, ids: seq<Id>)
    requires Inv(run(k)) && Covers(ids, run(k))
    requires forall i: nat :: Propagates(run(i), run(i + 1))
    ensures false
    decreases LevelWeight(run(k), ids, 0), LevelWeight(run(k), ids, 1), LevelWeight(run(k), ids, 2),
              LevelWeight(run(k), ids, 3), LevelWeight(run(k), ids, 4), LevelWeight(run(k), ids, 5),
              Unopened(run(k), ids), Lookups(run(k), ids)
  {
    hide Inv, Internal, Enabled, Next, Covers, LevelWeight, Unopened, Lookups, Propagates;
    var s, t := run(k), run(k + 1);
    var a := StepOf(s, t);
    StepKeepsInv(s, a);
    StepStaysCovered(s, a, ids);
    forall level: nat | level <= 5 && (level <= Level(a.id.kind.base) || a.Read?)
      ensures LevelWeight(t, ids, level) <= LevelWeight(s, ids, level)
      ensures !a.Read? && level == Level(a.id.kind.base) ==> LevelWeight(t, ids, level) < LevelWeight(s, ids, level)
    {
      LevelsNotRaised(s, a, ids, level);
    }
    if a.Read? {
      ReadLowersLookups(s, a.id, a.names, ids);
    }
    ScheduleEnds(run, k + 1, ids);
  }

  ghost function Listing(ids: set<Id>): (r: seq<Id>)
    ensures forall id :: id in ids <==> id in r
  {
    if ids == {} then []
    else
      var x :| x in ids;
      [x] + Listing(ids - {x})
  }

  /** Propagation terminates: no infinite schedule of steps of passes starts in any state that the
      invariants allow, however stale the passes in flight are. */
  lemma PropagationTerminates(run: nat -> State)
    requires Inv(run(0))
    ensures exists i: nat :: !Propagates(run(i), run(i + 1))
  {
    if forall i: nat :: Propagates(run(i), run(i + 1)) {
      var s := run(0);
      ScheduleEnds(run, 0, Listing(s.store.Keys + s.queue + s.passes.Keys));
    }
  }

  /** Every run that goes on for ever has outside events without end: edits, deletions, timers, or
      changes of owned objects. */
  lemma OutsideEventsRecur(run: nat -> State, n: nat)
    requires Inv(run(0)) && forall i: nat :: Follows(run(i), run(i + 1))
    ensures exists m: nat :: m >= n && !Propagates(run(m), run(m + 1))
  {
    hide Inv, Follows, Propagates;
    FollowsKeepsInv(run, n);
    var later := (i: nat) => run(n + i);
    PropagationTerminates(later);
    var i: nat :| !Propagates(later(i), later(i + 1));
    assert !Propagates(run(n + i), run(n + i + 1));
  }

  lemma {:induction false} FollowsKeepsInv(run: nat -> State, n: nat)
    requires Inv(run(0)) && forall i: nat :: Follows(run(i), run(i + 1))
    ensures Inv(run(n))
  {
    if n > 0 {
      FollowsKeepsInv(run, n - 1);
      assert Follows(run(n - 1), run(n - 1 + 1));
      var a :| Enabled(run(n - 1), a) && run(n) == Next(run(n - 1), a);
      StepKeepsInv(run(n - 1), a);
    }
  }

  /** A schedule can only end in a quiescent state. */
  lemma StuckMeansQuiescent(s: State)
    requires Inv(s) && forall t :: !Propagates(s, t)
    ensures Quiescent(s)
  {
    if s.passes != map[] {
      var id :| id in s.passes;
      var p := s.passes[id];
      assert PassShape(id, p, s.clock);
      var a := if Finished(p) then Finish(id) else Read(id, SomeOrder(MergedNavs(s.store, p).Keys));
      assert Enabled(s, a) && Propagates(s, Next(s, a));
    } else if s.queue != {} {
      var id :| id in s.queue;
      var a := if id in s.store && !s.store[id].held then Admit(id, true)
               else Begin(id, if id in s.store then SomeOrder(NavsOf(s.store[id].spec).Keys) else []);
      assert Enabled(s, a) && Propagates(s, Next(s, a));
    }
  }
}
