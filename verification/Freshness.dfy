/** What the observed generation of an object says about its recorded Ready. */
module Freshness {
  import opened Options
  import opened Objects
  import opened Needs
  import opened Readiness
  import opened Runs

  /** The record of one object is never ahead of its spec, and when it is level with it a recorded
      Ready condition was computed from exactly this spec. */
  ghost predicate Fresh(id: Id, o: Object) {
    && 1 <= o.gen && o.status.observed <= o.gen
    && (o.basis.Some? <==> o.status.judged)
    && (o.status.ready ==> o.status.judged)
    && (!o.status.judged ==> (o.held && id.kind.base == Host) || o.status.observed == 0)
    && (o.status.judged ==> o.held && (o.status.observed == o.gen ==> o.basis.value.spec == o.spec))
  }

  ghost predicate AllFresh(store: Store) {
    forall id :: id in store && id.kind.base != Secret ==> Fresh(id, store[id])
  }

  ghost predicate Held(s: State) {
    forall id :: id in s.passes && id in s.store && s.store[id].rv == s.passes[id].start.rv ==> s.store[id].held
  }

  lemma WriteKeepsFresh(s: State, id: Id)
    requires Versioned(s.store, s.passes) && AllFresh(s.store) && Held(s) && Enabled(s, Finish(id))
    requires id in s.store && id.kind.base != Secret
    ensures Fresh(id, FinishPass(s, id).store[id])
  {
  }

  lemma ActorFresh(s: State, a: Action)
    requires AllFresh(s.store) && Enabled(s, a) && !a.Finish?
    requires a.id in Next(s, a).store && a.id.kind.base != Secret
    requires a.Admit? ==> a.id.kind.base == Host
    ensures Fresh(a.id, Next(s, a).store[a.id])
  {
    if a.id in s.store {
      assert Fresh(a.id, s.store[a.id]);
    }
  }

  ghost predicate OnlyHostsUnheld(store: Store) {
    forall id :: id in store && !store[id].held ==> id.kind.base == Host
  }

  lemma StepKeepsFresh(s: State, a: Action)
    requires Inv(s) && AllFresh(s.store) && Held(s) && OnlyHostsUnheld(s.store) && Enabled(s, a)
    ensures AllFresh(Next(s, a).store) && Held(Next(s, a)) && OnlyHostsUnheld(Next(s, a).store)
  {
    var t := Next(s, a);
    StepLocal(s, a);
    forall id | id in t.store && id.kind.base != Secret ensures Fresh(id, t.store[id]) {
      if id != a.id {
        AwayFrom(s.store, t.store, a.id, id);
      } else if a.Finish? {
        WriteKeepsFresh(s, id);
      } else {
        ActorFresh(s, a);
      }
    }
    StepKeepsHeld(s, a);
  }

  lemma StepKeepsHeld(s: State, a: Action)
    requires Inv(s) && Held(s) && OnlyHostsUnheld(s.store) && Enabled(s, a)
    ensures Held(Next(s, a)) && OnlyHostsUnheld(Next(s, a).store)
  {
    hide Inv, Held, Next, Enabled;
    var t := Next(s, a);
    ActorHeld(s, a);
    StepLocal(s, a);
    forall id | id in t.store && !t.store[id].held ensures id.kind.base == Host {
      if id != a.id {
        AwayFrom(s.store, t.store, a.id, id);
      }
    }
    OthersHeld(s, t, a.id);
  }

  lemma OthersHeld(s: State, t: State, x: Id)
    requires Held(s) && s.store - {x} == t.store - {x}
    requires forall r :: r != x ==> (r in s.passes <==> r in t.passes) && (r in s.passes ==> s.passes[r] == t.passes[r])
    requires x in t.passes && x in t.store && t.store[x].rv == t.passes[x].start.rv ==> t.store[x].held
    ensures Held(t)
  {
    forall id | id in t.passes && id in t.store && t.store[id].rv == t.passes[id].start.rv
      ensures t.store[id].held
    {
      if id != x {
        AwayFrom(s.store, t.store, x, id);
      }
    }
  }

  lemma ActorHeld(s: State, a: Action)
    requires Inv(s) && Held(s) && OnlyHostsUnheld(s.store) && Enabled(s, a)
    ensures var t, id := Next(s, a), a.id;
      && (id in t.store && !t.store[id].held ==> id.kind.base == Host)
      && (id in t.passes && id in t.store && t.store[id].rv == t.passes[id].start.rv ==> t.store[id].held)
  {
    if a.id in s.passes { PassIsOlder(s, a.id); }
    hide Inv, Notified, WellFormed, Observe, PagePlan, Plan;
    match a {
      case Create(_, _) =>
      case Edit(_, _) =>
      case Read(_, _) =>
      case Begin(_, _) =>
      case Finish(_) =>
      case _ =>
    }
  }

  /** A pass in flight read its object before now. */
  lemma PassIsOlder(s: State, id: Id)
    requires Inv(s) && id in s.passes
    ensures s.passes[id].start.rv < s.clock
  {
    assert PassShape(id, s.passes[id], s.clock);
  }

  lemma {:induction false} RunKeepsFresh(run: seq<State>, k: nat)
    requires IsRun(run) && k < |run|
    ensures AllFresh(run[k].store) && Held(run[k]) && OnlyHostsUnheld(run[k].store)
  {
    if k > 0 {
      RunKeepsFresh(run, k - 1);
      RunKeepsInv(run, k - 1);
      assert Follows(run[k - 1], run[k - 1 + 1]);
      var a :| Enabled(run[k - 1], a) && run[k] == Next(run[k - 1], a);
      StepKeepsFresh(run[k - 1], a);
    }
  }

  /** In every state of every run, with spec edits anywhere inside passes: the observed generation
      never exceeds the generation; and where they are equal, the recorded status was computed from
      exactly the current spec if and only if it holds a Ready condition. For every kind but the
      host it then always does. */
  lemma ObservedReadyIsCurrent(run: seq<State>, k: nat, id: Id)
    requires IsRun(run) && k < |run| && id in run[k].store && id.kind.base != Secret
    ensures var o := run[k].store[id];
      && o.status.observed <= o.gen
      && (o.status.observed == o.gen ==> (o.basis.Some? && o.basis.value.spec == o.spec <==> o.status.judged))
      && (o.status.observed == o.gen && id.kind.base != Host ==> o.status.judged)
      && (o.status.ready ==> o.status.judged)
  {
    RunKeepsFresh(run, k);
    assert Fresh(id, run[k].store[id]);
  }

  /** The condition is needed: the pass that adds the finalizer leaves a host whose observed
      generation is current although nothing was computed from its spec. */
  lemma AdmittedIsNotJudged() returns (run: seq<State>, id: Id)
    ensures IsRun(run) && id in run[|run| - 1].store && id.kind.base == Host
    ensures var o := run[|run| - 1].store[id];
      o.status.observed == o.gen && o.basis.None? && !o.status.judged
  {
    id := Id(Kind(Host, false), "ns", "host");
    var spec := HostSpec(None, None, None, None, None, []);
    var created := Next(Init, Create(id, spec));
    hide Watched, Plan;
    assert id in Notified(created.store, id);
    assert Enabled(created, Admit(id, true));
    var admitted := Next(created, Admit(id, true));
    assert Follows(Init, created) && Follows(created, admitted);
    run := [Init, created, admitted];
  }
}
