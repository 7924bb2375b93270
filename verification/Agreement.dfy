/** When the work queue is empty, do the recorded Ready values agree with the store? */
module Agreement {
  import opened Options
  import opened Objects
  import opened Needs
  import opened Readiness
  import opened Runs
  import opened Inheritance
  import opened Resolvers

  ghost predicate Quiescent(s: State) {
    s.queue == {} && s.passes == map[]
  }

  predicate Agrees(store: Store, id: Id)
    requires id in store
  {
    store[id].status.ready <==> Recomputed(store, id)
  }

  /** A navigation inherited from a ready archetype resolves, from the page, to the object it
      resolves to from the archetype. */
  lemma InheritedTarget(page: Id, archetype: Id, ref: Ref, nav: Ref)
    requires (page.kind.clustered <==> page.ns == "") && (archetype.kind.clustered <==> archetype.ns == "")
    requires Fits(page, ref, PageArchetype) && Target(page, ref) == Some(archetype)
    requires Fits(archetype, nav, PageNavigation) && Target(archetype, nav).Some?
    ensures Target(page, nav) == Target(archetype, nav)
  {
  }

  /** When the archetype's own needs hold, so do the navigations that a page inherits from it. */
  lemma ArchetypeVouches(store: Store, id: Id, aid: Id)
    requires id in store && aid in store && id != aid
    requires WellFormed(id, store[id].spec) && WellFormed(aid, store[aid].spec)
    requires store[id].spec.PageSpec? && Target(id, store[id].spec.archetype) == Some(aid)
    requires AllDirectHold(store, aid)
    ensures forall n :: n in InheritedNeeds(store, id) ==> Holds(store, id, n)
  {
    var spec, navs := store[id].spec, NavsOf(store[aid].spec);
    forall n | n in InheritedNeeds(store, id) ensures Holds(store, id, n) {
      var left := InheritedNavs(navs, spec.navs);
      var name :| name in left && left[name].Some? && n == RefNeed(id, left[name].value);
      var nav := navs[name].value;
      assert RefNeed(aid, nav) in NavNeeds(aid, navs);
      assert Holds(store, aid, RefNeed(aid, nav));
      assert OptionFits(aid, navs[name], PageNavigation);
      InheritedTarget(id, aid, spec.archetype, nav);
    }
  }

  /** With nothing queued or in flight, a page whose own needs hold would be recomputed Ready. */
  lemma DirectNeedsDecide(s: State, id: Id)
    requires Inv(s) && Quiescent(s) && id in s.store && id.kind.base != Secret
    ensures Recomputed(s.store, id) <==> AllDirectHold(s.store, id)
  {
    var spec := s.store[id].spec;
    if AllDirectHold(s.store, id) && spec.PageSpec? {
      var n := RefNeed(id, spec.archetype);
      assert n in DirectNeeds(id, spec);
      assert Holds(s.store, id, n);
      var aid := n.target.value;
      assert Fits(id, spec.archetype, PageArchetype);
      assert Tracked(s, aid) && Settled(s, aid);
      assert WellFormed(id, spec);
      ArchetypeVouches(s.store, id, aid);
    }
  }

  /** Quiescence implies agreement, up to one exception that is stated exactly: a utility page
      whose last pass was stopped by an inherited navigation, although all the needs it states
      itself hold. A recorded Ready is right without exception, and so is the record of every
      object that inherits no navigations. */
  lemma QuiescenceAgreement(run: seq<State>, id: Id)
    requires IsRun(run)
    requires var s := run[|run| - 1]; Quiescent(s) && id in s.store && id.kind.base != Secret
    ensures var s := run[|run| - 1];
      && (s.store[id].status.ready ==> Recomputed(s.store, id))
      && (Agrees(s.store, id) <==> !(id in s.skipped && AllDirectHold(s.store, id)))
      && (InheritedNeeds(s.store, id) == {} ==> Agrees(s.store, id))
      && (id.kind.base != UtilityPage ==> Agrees(s.store, id))
      && (s.store[id].status.ready ==> Resolves(s.store, id))
      && (id.kind.base != UtilityPage ==> (s.store[id].status.ready <==> Resolves(s.store, id)))
  {
    hide Resolves;
    var s := run[|run| - 1];
    RecomputedIsResolves(s.store, id);
    RunKeepsInv(run, |run| - 1);
    DirectNeedsDecide(s, id);
    assert Tracked(s, id) && Settled(s, id);
    if id in s.skipped {
      var n := SkippedWasStopped(run, id);
    }
  }

  lemma SkippedWasStopped(run: seq<State>, id: Id) returns (n: Need)
    requires IsRun(run)
    requires var s := run[|run| - 1]; Quiescent(s) && id in s.store && id in s.skipped
    ensures WasStopped(run, run[|run| - 1].store, id, n)
  {
    var k := |run| - 1;
    RunKeepsInv(run, k);
    RunInherits(run, k);
    SkippedIsPage(run[k], id);
    assert PageInherits(run, k, id);
    n :| WasStopped(run, run[k].store, id, n);
  }

  lemma SkippedIsPage(s: State, id: Id)
    requires Inv(s) && id in s.store && id in s.skipped
    ensures s.store[id].spec.PageSpec?
  {
    assert WellFormed(id, s.store[id].spec);
  }

  /** What disagrees is a utility page, and during its last pass it did not find some navigation
      which it inherits now and which holds now. */
  lemma DisagreementSawAbsence(run: seq<State>, id: Id) returns (n: Need, j: nat)
    requires IsRun(run)
    requires var s := run[|run| - 1]; Quiescent(s) && id in s.store && !Agrees(s.store, id) && id.kind.base != Secret
    ensures var store := run[|run| - 1].store;
      && store[id].spec.PageSpec? && n in InheritedNeeds(store, id) && Holds(store, id, n)
      && store[id].basis.Some? && store[id].basis.value.begun <= j < store[id].basis.value.ended
      && j < |run| && !Holds(run[j].store, id, n)
  {
    var s := run[|run| - 1];
    QuiescenceAgreement(run, id);
    RunKeepsInv(run, |run| - 1);
    DirectNeedsDecide(s, id);
    n := SkippedWasStopped(run, id);
    SkippedIsPage(s, id);
    var b := s.store[id].basis.value;
    j :| b.begun <= j < b.ended && j < |run| && !Holds(run[j].store, id, n);
  }

  /** The exception is always covered by a requeue timer: an object that disagrees while the
      queue is empty will be reconciled again. */
  lemma DisagreementIsArmed(run: seq<State>, id: Id)
    requires IsRun(run)
    requires var s := run[|run| - 1]; Quiescent(s) && id in s.store && id.kind.base != Secret
    ensures var s := run[|run| - 1]; !Agrees(s.store, id) ==> id in s.armed && !s.store[id].status.ready
  {
    var s := run[|run| - 1];
    QuiescenceAgreement(run, id);
    RunKeepsInv(run, |run| - 1);
    assert Tracked(s, id) && Settled(s, id);
  }
}
