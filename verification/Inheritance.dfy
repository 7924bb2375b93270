/** Utility pages that a navigation inherited from their archetype has stopped. */
module Inheritance {
  import opened Options
  import opened Objects
  import opened Needs
  import opened Readiness
  import opened Runs

  /** The need failed at some moment from `begun` on, before `ended`. */
  ghost predicate SawFail(run: seq<State>, id: Id, n: Need, begun: nat, ended: nat) {
    exists j :: begun <= j < ended && j < |run| && !Holds(run[j].store, id, n)
  }

  /** A complete pass of a page has only its own and the inherited needs left, and the inherited
      navigation that stopped it was found wanting during the pass. */
  ghost predicate PassInherits(run: seq<State>, k: nat, id: Id, p: Pass)
    requires k < |run| && id in run[k].store
  {
    && (p.complete ==> NeedsOf(p.todo) <= DirectNeeds(id, p.start.spec) + InheritedNeeds(run[k].store, id))
    && (p.failed && p.todo != [] && p.todo[0].need !in DirectNeeds(id, p.start.spec) ==>
          SawFail(run, id, p.todo[0].need, p.begun, k))
  }

  /** One of the navigations that the page inherits now was found wanting during its last pass. */
  ghost predicate WasStopped(run: seq<State>, store: Store, id: Id, n: Need)
    requires id in store
  {
    && n in InheritedNeeds(store, id) && store[id].basis.Some?
    && SawFail(run, id, n, store[id].basis.value.begun, store[id].basis.value.ended)
  }

  ghost predicate PageInherits(run: seq<State>, k: nat, id: Id)
    requires k < |run| && id in run[k].store
  {
    var s := run[k];
    s.store[id].spec.PageSpec? && id !in s.queue ==>
      && (id in s.passes ==> PassInherits(run, k, id, s.passes[id]))
      && (id !in s.passes && id in s.skipped ==> exists n :: WasStopped(run, s.store, id, n))
  }

  ghost predicate AllInherit(run: seq<State>, k: nat)
    requires k < |run|
  {
    && run[k].clock == k
    && (forall id :: id in run[k].passes ==> run[k].passes[id].begun < k)
    && (forall id :: id in run[k].store ==> PageInherits(run, k, id))
  }

  lemma SpecWellFormed(s: State, id: Id)
    requires Inv(s) && id in s.store
    ensures WellFormed(id, s.store[id].spec)
  {
  }

  /** An event that leaves a page out of the queue leaves what it inherits alone. */
  lemma SameInherited(s: State, a: Action, id: Id)
    requires Inv(s) && Enabled(s, a) && id in s.store && id in Next(s, a).store
    requires Next(s, a).store[id].spec == s.store[id].spec && id !in Next(s, a).queue
    requires a.id == id ==> SameFace(s.store, Next(s, a).store, id)
    ensures InheritedNeeds(Next(s, a).store, id) == InheritedNeeds(s.store, id)
  {
    hide Inv, Enabled, Next, Notified, WellFormed, Level;
    var t, spec := Next(s, a), s.store[id].spec;
    if spec.PageSpec? && Target(id, spec.archetype).Some? {
      var n, aid := RefNeed(id, spec.archetype), Target(id, spec.archetype).value;
      assert n in DirectNeeds(id, spec);
      SpecWellFormed(s, id);
      DirectNeedsBelow(id, spec, n);
      StepLocal(s, a);
      if aid != a.id {
        AwayFrom(s.store, t.store, a.id, aid);
      } else {
        assert aid in Watched(id, spec);
        WatchersQueued(s, a, id);
      }
    }
  }

  lemma OthersInherit(run: seq<State>, k: nat, a: Action, id: Id)
    requires k + 1 < |run| && Inv(run[k]) && AllInherit(run, k)
    requires Enabled(run[k], a) && run[k + 1] == Next(run[k], a)
    requires id != a.id && id in run[k + 1].store
    ensures PageInherits(run, k + 1, id)
  {
    hide Inv, Enabled, Next, DirectNeeds, NeedsOf, InheritedNeeds, Holds;
    var s, t := run[k], run[k + 1];
    StepLocal(s, a);
    AwayFrom(s.store, t.store, a.id, id);
    assert PageInherits(run, k, id);
    if s.store[id].spec.PageSpec? && id !in t.queue {
      assert id !in s.queue;
      SameInherited(s, a, id);
      if id in t.passes {
        assert PassInherits(run, k, id, s.passes[id]);
      } else if id in t.skipped {
        var n :| WasStopped(run, s.store, id, n);
        assert WasStopped(run, t.store, id, n);
      }
    }
  }

  /** A pass that is not queued again reads the spec and the archetype that the store holds. */
  lemma PassReadsCurrent(s: State, id: Id)
    requires Inv(s) && id in s.store && id in s.passes && id !in s.queue && s.store[id].spec.PageSpec?
    ensures s.store[id].rv == s.passes[id].start.rv && s.store[id].spec == s.passes[id].start.spec
  {
    assert Tracked(s, id);
    assert SameRecord(s.store[id], s.passes[id].start);
  }

  /** Before it is complete, the pass of a page looks for the archetype that its spec names. */
  lemma ArchetypeFirst(id: Id, p: Pass, clock: nat)
    requires PassShape(id, p, clock) && !p.complete
    ensures p.start.spec.PageSpec? && p.todo != [] && p.todo[0].need == RefNeed(id, p.start.spec.archetype)
    ensures p.todo[0].need in DirectNeeds(id, p.start.spec)
  {
  }

  lemma InheritedIsNow(store: Store, id: Id, p: Pass)
    requires id in store && store[id].spec.PageSpec? && p.start.spec == store[id].spec && p.todo != []
    requires p.todo[0].need == RefNeed(id, p.start.spec.archetype)
    ensures MergedNavs(store, p) == Inherited(store, p) + store[id].spec.navs
    ensures NavNeeds(id, InheritedNavs(Inherited(store, p), store[id].spec.navs)) <= InheritedNeeds(store, id)
  {
  }

  /** Once it has read its archetype, a page has its own and the inherited needs left. */
  lemma OpenedInherits(store: Store, id: Id, p: Pass, names: seq<string>)
    requires id in store && store[id].spec.PageSpec? && p.start.spec == store[id].spec && p.todo != []
    requires p.todo[0].need == RefNeed(id, p.start.spec.archetype)
    requires Visits(names, MergedNavs(store, p).Keys)
    ensures NeedsOf(PagePlan(id, p.start.spec, Inherited(store, p), names))
         <= DirectNeeds(id, p.start.spec) + InheritedNeeds(store, id)
  {
    hide NavNeeds, DirectNeeds, PagePlan, InheritedNeeds, NeedsOf, RefNeed, Inherited, MergedNavs, Visits;
    InheritedIsNow(store, id, p);
    var inherited := Inherited(store, p);
    PagePlanReads(id, p.start.spec, inherited, names);
    assert NeedsOf(PagePlan(id, p.start.spec, inherited, names))
        <= {RefNeed(id, p.start.spec.archetype)} + NeedsOf(PagePlan(id, p.start.spec, inherited, names));
  }

  lemma OpeningInherits(s: State, id: Id, names: seq<string>)
    requires Inv(s) && Enabled(s, Read(id, names)) && id in s.store && id !in s.queue && s.store[id].spec.PageSpec?
    requires !s.passes[id].complete
    ensures var p := s.passes[id]; var q := ReadNext(s.store, id, p, names, s.clock);
      && q.start == p.start
      && if q.failed then q.todo != [] && q.todo[0].need in DirectNeeds(id, p.start.spec) && !q.complete
         else NeedsOf(q.todo) <= DirectNeeds(id, p.start.spec) + InheritedNeeds(s.store, id)
  {
    hide Inv, PassShape, NavNeeds, DirectNeeds, PagePlan, Observe, InheritedNeeds, NeedsOf, RefNeed, Inherited,
         MergedNavs, Visits;
    var p := s.passes[id];
    PassReadsCurrent(s, id);
    PassHasShape(s, id);
    ArchetypeFirst(id, p, s.clock);
    OpenedInherits(s.store, id, p, names);
  }

  lemma ReadInherits(run: seq<State>, k: nat, id: Id, names: seq<string>)
    requires k + 1 < |run| && Inv(run[k]) && AllInherit(run, k)
    requires Enabled(run[k], Read(id, names)) && run[k + 1] == Next(run[k], Read(id, names))
    requires id in run[k + 1].store
    ensures PageInherits(run, k + 1, id)
  {
    hide Inv, DirectNeeds, InheritedNeeds, NeedsOf, Observe;
    var s, p := run[k], run[k].passes[id];
    if s.store[id].spec.PageSpec? && id !in s.queue {
      assert PageInherits(run, k, id) && PassInherits(run, k, id, p);
      var q := ReadNext(s.store, id, p, names, s.clock);
      assert q.failed ==> SawFail(run, id, q.todo[0].need, q.begun, k + 1) by {
        assert q.failed ==> !Holds(run[k].store, id, p.todo[0].need);
      }
      if p.complete {
        TailNeeds(p.todo);
      } else {
        OpeningInherits(s, id, names);
      }
    }
  }

  lemma FinishInherits(run: seq<State>, k: nat, id: Id)
    requires k + 1 < |run| && Inv(run[k]) && AllInherit(run, k)
    requires Enabled(run[k], Finish(id)) && run[k + 1] == Next(run[k], Finish(id))
    requires id in run[k + 1].store
    ensures PageInherits(run, k + 1, id)
  {
    hide Inv, Next, DirectNeeds, InheritedNeeds, NeedsOf, Holds, PassShape, Finished, RefNeed;
    var s, t, p := run[k], run[k + 1], run[k].passes[id];
    FinishIsLocal(s, id);
    if t.store[id].spec.PageSpec? && id !in t.queue && id in t.skipped {
      SpecWellFormed(s, id);
      PageBase(id, s.store[id].spec);
      PassReadsCurrent(s, id);
      PassHasShape(s, id);
      StoppedLast(s, id);
      if !p.complete { ArchetypeFirst(id, p, s.clock); }
      assert PageInherits(run, k, id) && PassInherits(run, k, id, p);
      SameInherited(s, Finish(id), id);
      FirstIsNeeded(p);
      assert WasStopped(run, t.store, id, p.todo[0].need);
    }
  }

  lemma FinishIsLocal(s: State, id: Id)
    requires Enabled(s, Finish(id)) && id in Next(s, Finish(id)).store
    ensures var t := Next(s, Finish(id));
      && id in s.passes && id in s.store && t.store[id].spec == s.store[id].spec && id !in t.passes
      && (id !in t.queue ==> id !in s.queue)
  {
    hide Notified;
  }

  lemma FirstIsNeeded(p: Pass)
    requires p.todo != []
    ensures p.todo[0].need in NeedsOf(p.todo)
  {
  }

  /** A page that is skipped and not queued after its pass was stopped by an inherited need. */
  lemma StoppedLast(s: State, id: Id)
    requires Inv(s) && Enabled(s, Finish(id)) && id in s.store && id.kind.base != Secret
    requires var t := Next(s, Finish(id)); id !in t.queue && id in t.skipped
    ensures var t, p := Next(s, Finish(id)), s.passes[id];
      && p.failed && p.todo != [] && p.todo[0].need !in DirectNeeds(id, p.start.spec)
      && id in t.store && t.store[id].basis == Some(Basis(p.start.spec, p.begun, s.clock, p.readings))
      && SameFace(s.store, t.store, id)
  {
    hide Inv, DirectNeeds, Watched;
    OwnEvent(Next(s, Finish(id)).store, id);
  }

  lemma StepInherits(run: seq<State>, k: nat, a: Action)
    requires k + 1 < |run| && Inv(run[k]) && AllInherit(run, k)
    requires Enabled(run[k], a) && run[k + 1] == Next(run[k], a)
    ensures AllInherit(run, k + 1)
  {
    hide Inv, PageInherits, DirectNeeds, Watched, Plan, ReadNext;
    var s, t := run[k], run[k + 1];
    BegunBefore(s, a, k);
    forall id | id in t.store ensures PageInherits(run, k + 1, id) {
      if id != a.id {
        OthersInherit(run, k, a, id);
      } else if a.Read? {
        ReadInherits(run, k, id, a.names);
      } else if a.Finish? {
        FinishInherits(run, k, id);
      } else {
        StepKeepsInv(s, a);
        ActorInherits(run, k, a);
      }
    }
  }

  lemma BegunBefore(s: State, a: Action, k: nat)
    requires Enabled(s, a) && s.clock == k && forall id :: id in s.passes ==> s.passes[id].begun < k
    ensures Next(s, a).clock == k + 1
    ensures forall id :: id in Next(s, a).passes ==> Next(s, a).passes[id].begun < k + 1
  {
    hide Watched, Plan, Observe, PagePlan;
    StepLocal(s, a);
  }

  /** Every other step queues its object or begins a pass that is not complete. */
  lemma ActorInherits(run: seq<State>, k: nat, a: Action)
    requires k + 1 < |run| && Enabled(run[k], a) && run[k + 1] == Next(run[k], a) && Inv(run[k + 1])
    requires !a.Read? && !a.Finish? && a.id in run[k + 1].store
    ensures PageInherits(run, k + 1, a.id)
  {
    var t, id := run[k + 1], a.id;
    assert WellFormed(id, t.store[id].spec);
    if t.store[id].spec.PageSpec? {
      PageBase(id, t.store[id].spec);
      OwnEvent(t.store, id);
    }
    hide Inv, Watched, Plan, InheritedNeeds, DirectNeeds, WellFormed, Notified;
  }

  lemma InitInherits(run: seq<State>)
    requires IsRun(run)
    ensures AllInherit(run, 0)
  {
  }

  lemma {:induction false} RunInherits(run: seq<State>, k: nat)
    requires IsRun(run) && k < |run|
    ensures AllInherit(run, k)
  {
    hide AllInherit, Inv, Enabled, Next;
    if k == 0 {
      InitInherits(run);
    } else {
      RunInherits(run, k - 1);
      RunKeepsInv(run, k - 1);
      assert Follows(run[k - 1], run[k - 1 + 1]);
      var a :| Enabled(run[k - 1], a) && run[k] == Next(run[k - 1], a);
      StepInherits(run, k - 1, a);
    }
  }
}
