/** A run in which the queue empties and a utility page still disagrees with the store.

    The page passes while a navigation that it inherits from its archetype is briefly gone. When
    the navigation is back, the archetype's own pass changes nothing, so no event reaches the
    page. */
module TransientNavigation {
  import opened Options
  import opened Objects
  import opened Needs
  import opened Readiness
  import opened Runs
  import opened Evaluation
  import opened Agreement
  import opened Propagation

  ghost function Last(run: seq<State>): State {
    if run == [] then Init else run[|run| - 1]
  }

  lemma Take(run: seq<State>, a: Action) returns (run': seq<State>)
    requires IsRun(run) && Enabled(Last(run), a)
    ensures IsRun(run') && Last(run') == Next(Last(run), a)
  {
    var t := Next(Last(run), a);
    run' := run + [t];
    forall i | 0 <= i < |run'| - 1 ensures Follows(run'[i], run'[i + 1]) {
      if i < |run| - 1 {
        assert Follows(run[i], run[i + 1]);
      } else {
        assert run'[i] == Last(run) && run'[i + 1] == t;
      }
    }
  }

  lemma OneRead(s: State, id: Id, names: seq<string>)
    requires Inv(s) && id in s.passes && id in s.store && !Finished(s.passes[id])
    requires names == SomeOrder(MergedNavs(s.store, s.passes[id]).Keys)
    ensures Enabled(s, Read(id, names))
    ensures var p, t := s.passes[id], Next(s, Read(id, names));
      && id in t.passes && t.passes - {id} == s.passes - {id}
      && t.store == s.store && t.queue == s.queue && t.armed == s.armed
      && t.passes[id].start == p.start
      && Expected(s.store, id, t.passes[id]) == Expected(s.store, id, p)
      && (t.passes[id].failed || (t.passes[id].complete && (p.complete ==> |t.passes[id].todo| < |p.todo|)))
  {
    hide Inv, Expected, Notified, WellFormed, PagePlan, Observe, Below, NeedsOf, DirectNeeds, Plan, MergedNavs;
    PassHasShape(s, id);
    InvShape(s);
    ReadKeepsExpected(s, id, names);
  }

  lemma FinishedExpected(store: Store, id: Id, p: Pass)
    requires Finished(p)
    ensures Expected(store, id, p) == Outcome(p)
  {
  }

  /** The remaining lookups of a pass, undisturbed. */
  lemma ReadOn(run: seq<State>, id: Id) returns (run': seq<State>)
    requires IsRun(run) && id in Last(run).passes && id in Last(run).store
    ensures IsRun(run') && id in Last(run').passes
    ensures var s, t := Last(run), Last(run');
      && Finished(t.passes[id]) && t.passes - {id} == s.passes - {id}
      && t.store == s.store && t.queue == s.queue && t.armed == s.armed
      && t.passes[id].start == s.passes[id].start
      && Outcome(t.passes[id]) == Expected(s.store, id, s.passes[id])
    decreases !Last(run).passes[id].complete, |Last(run).passes[id].todo|
  {
    hide Inv, Next, IsRun, Expected, Outcome, MergedNavs;
    var s := Last(run);
    var p := s.passes[id];
    RunKeepsInv(run, |run| - 1);
    if Finished(p) {
      FinishedExpected(s.store, id, p);
      run' := run;
    } else {
      var a := Read(id, SomeOrder(MergedNavs(s.store, p).Keys));
      OneRead(s, id, a.names);
      var next := Take(run, a);
      if Last(next).passes[id].failed {
        FinishedExpected(s.store, id, Last(next).passes[id]);
        run' := next;
      } else {
        run' := ReadOn(next, id);
      }
    }
  }

  /** One pass over `id` from start to status write, with nothing in between. */
  lemma WholePass(run: seq<State>, id: Id) returns (run': seq<State>)
    requires IsRun(run) && Last(run).passes == map[]
    requires var s := Last(run); id in s.queue && id in s.store && s.store[id].held && id.kind.base != Secret
    ensures IsRun(run') && Last(run').passes == map[]
    ensures var s, t := Last(run), Last(run');
      && t.store.Keys == s.store.Keys && t.store - {id} == s.store - {id}
      && t.store[id].status == Due(s.store, id)
      && t.store[id].spec == s.store[id].spec && t.store[id].gen == s.store[id].gen
      && t.store[id].up == s.store[id].up && t.store[id].held
      && t.queue == s.queue - {id} +
           (if Due(s.store, id) == s.store[id].status then {} else Notified(s.store, id))
  {
    hide IsRun, Inv, Plan, Watched, Expected, Due, Visits, WellFormed, MergedNavs;
    var s := Last(run);
    var a := Begin(id, SomeOrder(NavsOf(s.store[id].spec).Keys));
    StartExpectsDue(s.store, id, a.names, s.clock);
    var begun := Take(run, a);
    var read := ReadOn(begun, id);
    var u := Last(read);
    run' := Take(read, Finish(id));
    SameReferrers(s.store, Last(run').store, id);
  }

  lemma SameReferrers(store: Store, store': Store, id: Id)
    requires store.Keys == store'.Keys && store - {id} == store' - {id}
    requires id in store && store[id].spec == store'[id].spec
    ensures Notified(store, id) == Notified(store', id)
  {
    forall r | r in store ensures store[r].spec == store'[r].spec {
      if r != id { AwayFrom(store, store', id, r); }
    }
  }

  // ---------- the run ----------

  const NAV := Id(Kind(PageNavigation, false), "web", "menu")
  const ARCHETYPE := Id(Kind(PageArchetype, false), "web", "plain")
  const PAGE := Id(Kind(UtilityPage, false), "web", "login")

  const NAV_SPEC := StyledSpec(None)
  const ARCHETYPE_SPEC := ArchetypeSpec(None, None, NAVS, None)
  const NAVS: Navs := map["main" := Some(Ref(Known(NAV.kind), NAV.name, ""))]
  const PAGE_SPEC := PageSpec(Login, Ref(Known(ARCHETYPE.kind), ARCHETYPE.name, ""), [RawContent("main")],
                              None, None, map[], None)

  const NAV_NEED := Need(Some(NAV), MustBeReady)
  const ARCHETYPE_NEED := Need(Some(ARCHETYPE), MustBeReady)

  lemma ArchetypeWatches()
    ensures Watched(ARCHETYPE, ARCHETYPE_SPEC) == {NAV}
    ensures DirectNeeds(ARCHETYPE, ARCHETYPE_SPEC) == {NAV_NEED}
  {
    assert RefNeed(ARCHETYPE, NAVS["main"].value) == NAV_NEED;
    assert NavNeeds(ARCHETYPE, NAVS) == {NAV_NEED};
    assert DirectNeeds(ARCHETYPE, ARCHETYPE_SPEC) == {NAV_NEED};
  }

  lemma PageWatches()
    ensures Watched(PAGE, PAGE_SPEC) == {ARCHETYPE}
    ensures DirectNeeds(PAGE, PAGE_SPEC) == {ARCHETYPE_NEED}
  {
    assert NavNeeds(PAGE, map[]) == {} && ContentNeeds(PAGE, PAGE_SPEC.contents) == {};
    assert RefNeed(PAGE, PAGE_SPEC.archetype) == ARCHETYPE_NEED;
    assert DirectNeeds(PAGE, PAGE_SPEC) == {ARCHETYPE_NEED};
  }

  lemma PageInherits()
    ensures NavNeeds(PAGE, InheritedNavs(NAVS, map[])) == {NAV_NEED}
  {
    assert "main" in NAVS && InheritedNavs(NAVS, map[]) == NAVS;
    assert RefNeed(PAGE, NAVS["main"].value) == NAV_NEED;
  }

  lemma WatchedSets()
    ensures Watched(NAV, NAV_SPEC) == {}
    ensures Watched(ARCHETYPE, ARCHETYPE_SPEC) == {NAV}
    ensures Watched(PAGE, PAGE_SPEC) == {ARCHETYPE}
    ensures WellFormed(NAV, NAV_SPEC) && WellFormed(ARCHETYPE, ARCHETYPE_SPEC) && WellFormed(PAGE, PAGE_SPEC)
  {
    ArchetypeWatches();
    PageWatches();
  }

  /** The store holds the archetype and the page as created, and perhaps the navigation. */
  ghost predicate Scene(s: State) {
    && s.passes == map[]
    && s.store.Keys - {NAV} == {ARCHETYPE, PAGE}
    && s.store[ARCHETYPE].spec == ARCHETYPE_SPEC && s.store[PAGE].spec == PAGE_SPEC
    && s.store[ARCHETYPE].held && s.store[PAGE].held
    && (NAV in s.store ==> s.store[NAV].spec == NAV_SPEC && s.store[NAV].held)
  }

  lemma SceneWellFormed(s: State)
    requires Scene(s)
    ensures forall x :: x in s.store ==> WellFormed(x, s.store[x].spec)
    ensures ARCHETYPE in s.store && PAGE in s.store
    ensures forall x :: x in s.store ==> x in {NAV, ARCHETYPE, PAGE}
  {
    WatchedSets();
    assert ARCHETYPE in s.store.Keys - {NAV} && PAGE in s.store.Keys - {NAV};
    forall x | x in s.store ensures x in {NAV, ARCHETYPE, PAGE} {
      assert x in s.store.Keys - {NAV} <==> x in s.store.Keys && x != NAV;
    }
  }

  function WatchedInScene(r: Id): set<Id> {
    if r == ARCHETYPE then {NAV} else if r == PAGE then {ARCHETYPE} else {}
  }

  lemma SceneWatched(s: State, r: Id)
    requires Scene(s) && r in s.store
    ensures r in {NAV, ARCHETYPE, PAGE}
    ensures Watched(r, s.store[r].spec) == WatchedInScene(r)
  {
    WatchedSets();
    assert r in s.store.Keys - {NAV} <==> r in s.store.Keys && r != NAV;
  }

  lemma EventsFromWatched(store: Store, id: Id, watched: map<Id, set<Id>>)
    requires watched.Keys == store.Keys && id.kind.base != Secret
    requires forall r :: r in store ==> watched[r] == Watched(r, store[r].spec)
    ensures Notified(store, id) == {id} + set r | r in watched && id in watched[r]
  {
  }

  lemma EventSets(watched: map<Id, set<Id>>)
    requires watched.Keys - {NAV} == {ARCHETYPE, PAGE}
    requires forall r :: r in watched ==> watched[r] == WatchedInScene(r)
    ensures (set r | r in watched && NAV in watched[r]) == {ARCHETYPE}
    ensures (set r | r in watched && ARCHETYPE in watched[r]) == {PAGE}
    ensures (set r | r in watched && PAGE in watched[r]) == {}
  {
    assert NAV != ARCHETYPE && NAV != PAGE && ARCHETYPE != PAGE;
    assert ARCHETYPE in watched.Keys - {NAV} && PAGE in watched.Keys - {NAV};
    assert forall r :: r in watched && r != NAV ==> r in watched.Keys - {NAV};
  }

  lemma SceneEvents(s: State)
    requires Scene(s)
    ensures Notified(s.store, NAV) == {NAV, ARCHETYPE}
    ensures Notified(s.store, ARCHETYPE) == {ARCHETYPE, PAGE}
    ensures Notified(s.store, PAGE) == {PAGE}
  {
    var watched := map r | r in s.store :: WatchedInScene(r);
    forall r | r in s.store ensures watched[r] == Watched(r, s.store[r].spec) {
      SceneWatched(s, r);
    }
    assert watched.Keys == s.store.Keys;
    EventSets(watched);
    SceneNotified(s.store, watched);
  }

  lemma SceneNotified(store: Store, watched: map<Id, set<Id>>)
    requires watched.Keys == store.Keys
    requires forall r :: r in store ==> watched[r] == Watched(r, store[r].spec)
    requires (set r | r in watched && NAV in watched[r]) == {ARCHETYPE}
    requires (set r | r in watched && ARCHETYPE in watched[r]) == {PAGE}
    requires (set r | r in watched && PAGE in watched[r]) == {}
    ensures Notified(store, NAV) == {NAV, ARCHETYPE}
    ensures Notified(store, ARCHETYPE) == {ARCHETYPE, PAGE}
    ensures Notified(store, PAGE) == {PAGE}
  {
    EventsFromWatched(store, NAV, watched);
    EventsFromWatched(store, ARCHETYPE, watched);
    EventsFromWatched(store, PAGE, watched);
  }

  lemma SceneNeeds(s: State)
    requires Scene(s)
    ensures DirectNeeds(ARCHETYPE, ARCHETYPE_SPEC) == {NAV_NEED}
    ensures DirectNeeds(PAGE, PAGE_SPEC) == {ARCHETYPE_NEED}
    ensures InheritedNeeds(s.store, PAGE) == {NAV_NEED}
    ensures InheritedNeeds(s.store, ARCHETYPE) == {}
  {
    ArchetypeWatches();
    PageWatches();
    PageInherits();
    hide DirectNeeds, NavNeeds, InheritedNavs;
    assert ARCHETYPE in s.store.Keys - {NAV} && PAGE in s.store.Keys - {NAV};
    assert NavsOf(s.store[ARCHETYPE].spec) == NAVS && s.store[PAGE].spec.navs == map[];
  }

  lemma SceneDue(s: State)
    requires Scene(s)
    ensures NAV in s.store && s.store[NAV].status.ready ==> Due(s.store, ARCHETYPE).ready
    ensures NAV !in s.store ==> !Due(s.store, PAGE).ready
    ensures NAV in s.store && s.store[NAV].status.ready && s.store[ARCHETYPE].status.ready ==>
      Recomputed(s.store, PAGE)
  {
    hide DirectNeeds, Due, Recomputed, InheritedNeeds;
    assert ARCHETYPE in s.store.Keys - {NAV} && PAGE in s.store.Keys - {NAV};
    DueReadyIsRecomputed(s.store, ARCHETYPE);
    DueReadyIsRecomputed(s.store, PAGE);
    SceneNeeds(s);
    RecomputedFrom(s.store, ARCHETYPE, {NAV_NEED}, {});
    RecomputedFrom(s.store, PAGE, {ARCHETYPE_NEED}, {NAV_NEED});
    assert NAV_NEED in {NAV_NEED} && ARCHETYPE_NEED in {ARCHETYPE_NEED};
  }

  lemma RecomputedFrom(store: Store, id: Id, direct: set<Need>, inherited: set<Need>)
    requires id in store && DirectNeeds(id, store[id].spec) == direct && InheritedNeeds(store, id) == inherited
    ensures Recomputed(store, id) <==>
      (forall n :: n in direct ==> Holds(store, id, n)) && (forall n :: n in inherited ==> Holds(store, id, n))
  {
  }

  lemma NavDue(s: State)
    requires Scene(s) && NAV in s.store
    ensures Due(s.store, NAV) == Status(true, s.store[NAV].status.attrs, s.store[NAV].gen, true)
  {
    assert Plan(NAV, NAV_SPEC, SomeOrder({})) == [];
  }

  // ---------- the steps ----------

  /** A whole pass within the scene. */
  lemma ScenePass(run: seq<State>, id: Id) returns (run': seq<State>)
    requires IsRun(run) && Scene(Last(run)) && id in Last(run).queue && id in Last(run).store
    requires id in {NAV, ARCHETYPE, PAGE}
    ensures IsRun(run') && Scene(Last(run'))
    ensures var s, t := Last(run), Last(run');
      && t.store.Keys == s.store.Keys
      && (forall x :: x in s.store && x != id ==> t.store[x] == s.store[x])
      && t.store[id].status == Due(s.store, id) && SameMeta(s.store[id], t.store[id])
      && t.queue == s.queue - {id} + if Due(s.store, id) == s.store[id].status then {} else Notified(s.store, id)
  {
    hide Due, Notified;
    run' := WholePass(run, id);
    var s, t := Last(run), Last(run');
    forall x | x in s.store && x != id ensures t.store[x] == s.store[x] {
      AwayFrom(s.store, t.store, id, x);
    }
  }

  ghost predicate SameMeta(o: Object, o': Object) {
    o'.spec == o.spec && o'.gen == o.gen && o'.up == o.up
  }

  /** A pass that records what is recorded already raises no event. */
  lemma QuietPass(run: seq<State>, id: Id) returns (run': seq<State>)
    requires IsRun(run) && Scene(Last(run)) && id in Last(run).queue && id in Last(run).store
    requires id in {NAV, ARCHETYPE, PAGE} && Last(run).store[id].status == Due(Last(run).store, id)
    ensures IsRun(run') && Scene(Last(run')) && Last(run').queue == Last(run).queue - {id}
    ensures SceneSame(Last(run).store, Last(run').store)
  {
    run' := ScenePass(run, id);
  }

  ghost predicate SceneSame(store: Store, store': Store) {
    store'.Keys == store.Keys
    && forall x :: x in store ==> SameMeta(store[x], store'[x]) && store'[x].status == store[x].status
  }

  /** Two passes in a row: the second finds nothing to do. */
  lemma PassTwice(run: seq<State>, id: Id) returns (run': seq<State>)
    requires IsRun(run) && Scene(Last(run)) && id in Last(run).queue && id in Last(run).store
    requires id in {NAV, ARCHETYPE, PAGE} && Last(run).store[id].status != Due(Last(run).store, id)
    ensures IsRun(run') && Scene(Last(run'))
    ensures var s, t := Last(run), Last(run');
      && t.store.Keys == s.store.Keys
      && (forall x :: x in s.store ==> SameMeta(s.store[x], t.store[x]))
      && (forall x :: x in s.store && x != id ==> t.store[x].status == s.store[x].status)
      && t.store[id].status == Due(s.store, id) == Due(t.store, id)
      && t.queue == s.queue + Notified(s.store, id) - {id}
  {
    hide *;
    var once := ScenePass(run, id);
    var s, u := Last(run), Last(once);
    SceneWellFormed(s);
    EventOfItself(s.store, id);
    OnlyStatus(s.store, u.store, id);
    DueIdempotent(s.store, u.store, id);
    run' := QuietPass(once, id);
    var t := Last(run');
    SceneSameChain(s.store, u.store, t.store, id);
    DueIdempotent(s.store, t.store, id);
  }

  lemma OnlyStatus(store: Store, store': Store, id: Id)
    requires store.Keys == store'.Keys && id in store && SameMeta(store[id], store'[id])
    requires forall x :: x in store && x != id ==> store'[x] == store[x]
    ensures SameBelow(store, store', id)
    ensures store'[id].spec == store[id].spec && store'[id].gen == store[id].gen
  {
  }

  lemma SceneSameChain(store: Store, mid: Store, store': Store, id: Id)
    requires store.Keys == mid.Keys && id in store && SameMeta(store[id], mid[id])
    requires forall x :: x in store && x != id ==> mid[x] == store[x]
    requires SceneSame(mid, store')
    ensures store'.Keys == store.Keys && (forall x :: x in store ==> SameMeta(store[x], store'[x]))
    ensures forall x :: x in store && x != id ==> store'[x].status == store[x].status
    ensures store'[id].status == mid[id].status
    ensures SameBelow(store, store', id)
    ensures store'[id].spec == store[id].spec && store'[id].gen == store[id].gen
  {
  }

  lemma EventOfItself(store: Store, id: Id)
    requires id in {NAV, ARCHETYPE, PAGE}
    ensures id.kind.base != Secret
    ensures id in Notified(store, id)
  {
  }

  function Fresh(id: Id, spec: Spec, clock: nat): Object {
    Object(spec, 1, clock, false, true, UNJUDGED, None)
  }

  lemma CreateOne(run: seq<State>, id: Id, spec: Spec) returns (run': seq<State>)
    requires IsRun(run) && id !in Last(run).store && WellFormed(id, spec)
    requires id.kind.base != Secret && id.kind.base != Host
    ensures IsRun(run')
    ensures var s, t := Last(run), Last(run');
      && t.store == s.store[id := Fresh(id, spec, s.clock)]
      && t.queue == s.queue + Notified(t.store, id) && t.passes == s.passes
  {
    run' := Take(run, Create(id, spec));
  }

  lemma NotifiedBounds(store: Store, id: Id)
    requires id.kind.base != Secret
    ensures {id} <= Notified(store, id) <= {id} + store.Keys
  {
  }

  lemma Created() returns (run: seq<State>)
    ensures IsRun(run) && Scene(Last(run)) && Last(run).queue == {NAV, ARCHETYPE, PAGE}
    ensures NAV in Last(run).store
    ensures forall x :: x in Last(run).store ==>
              Last(run).store[x].gen == 1 && !Last(run).store[x].up && Last(run).store[x].status == UNJUDGED
  {
    hide *;
    WatchedSets();
    Distinct();
    FirstRun();
    run := CreateOne([Init], NAV, NAV_SPEC);
    var s1 := Last(run);
    NotifiedBounds(s1.store, NAV);
    run := CreateOne(run, ARCHETYPE, ARCHETYPE_SPEC);
    var s2 := Last(run);
    NotifiedBounds(s2.store, ARCHETYPE);
    run := CreateOne(run, PAGE, PAGE_SPEC);
    NotifiedBounds(Last(run).store, PAGE);
    AllCreated(s1, s2, Last(run));
  }

  lemma FirstRun()
    ensures IsRun([Init]) && Last([Init]).store == map[] && Last([Init]).queue == {} && Last([Init]).passes == map[]
  {
  }

  lemma Distinct()
    ensures NAV != ARCHETYPE && NAV != PAGE && ARCHETYPE != PAGE
    ensures forall id :: id in {NAV, ARCHETYPE, PAGE} ==> id.kind.base != Secret && id.kind.base != Host
  {
  }

  lemma AllCreated(s: State, t: State, u: State)
    requires exists c :: s.store == map[NAV := Fresh(NAV, NAV_SPEC, c)]
    requires exists c :: t.store == s.store[ARCHETYPE := Fresh(ARCHETYPE, ARCHETYPE_SPEC, c)]
    requires exists c :: u.store == t.store[PAGE := Fresh(PAGE, PAGE_SPEC, c)]
    requires u.passes == map[]
    requires {NAV} <= s.queue <= {NAV} + s.store.Keys
    requires s.queue + {ARCHETYPE} <= t.queue <= s.queue + {ARCHETYPE} + t.store.Keys
    requires t.queue + {PAGE} <= u.queue <= t.queue + {PAGE} + u.store.Keys
    ensures Scene(u) && u.queue == {NAV, ARCHETYPE, PAGE} && NAV in u.store
    ensures forall x :: x in u.store ==>
              u.store[x].gen == 1 && !u.store[x].up && u.store[x].status == UNJUDGED
  {
    Distinct();
    assert u.store.Keys == {NAV, ARCHETYPE, PAGE};
    assert u.store.Keys - {NAV} == {ARCHETYPE, PAGE};
  }

  /** The navigation and the archetype are Ready; only the page is queued. */
  ghost predicate Prepared(s: State) {
    && Scene(s) && NAV in s.store && s.queue == {PAGE}
    && s.store[NAV].status == Status(true, map[], 1, true) && s.store[NAV].gen == 1 && !s.store[NAV].up
    && s.store[ARCHETYPE].status.ready && s.store[ARCHETYPE].status == Due(s.store, ARCHETYPE)
    && s.store[PAGE].status == UNJUDGED && s.store[PAGE].gen == 1
  }

  lemma Prepare() returns (run: seq<State>)
    ensures IsRun(run) && Prepared(Last(run))
  {
    hide Notified, Due, IsRun, WellFormed;
    run := Created();
    SceneWellFormed(Last(run));
    SceneEvents(Last(run));
    NavDue(Last(run));
    run := PassTwice(run, NAV);
    var s := Last(run);
    SceneDue(s);
    SceneEvents(s);
    SceneWellFormed(s);
    run := PassTwice(run, ARCHETYPE);
  }

  lemma DeleteNavigation(run: seq<State>) returns (run': seq<State>)
    requires IsRun(run) && Scene(Last(run)) && NAV in Last(run).store
    ensures IsRun(run')
    ensures var s, t := Last(run), Last(run');
      t.store == s.store - {NAV} && t.queue == s.queue + Notified(t.store, NAV) - {NAV} && t.passes == map[]
  {
    var gone := Take(run, Delete(NAV));
    NotifiedBounds(Last(gone).store, NAV);
    run' := Take(gone, Begin(NAV, []));
  }

  lemma SceneWithout(s: State, t: State)
    requires Scene(s) && t.store == s.store - {NAV} && t.passes == map[]
    ensures Scene(t) && NAV !in t.store
    ensures t.store[ARCHETYPE] == s.store[ARCHETYPE] && t.store[PAGE] == s.store[PAGE]
  {
    SceneWellFormed(s);
    assert t.store.Keys == {ARCHETYPE, PAGE};
  }

  /** The navigation is gone when the page passes; the page records not Ready. */
  lemma LoseNavigation(run: seq<State>) returns (run': seq<State>)
    requires IsRun(run) && Prepared(Last(run))
    ensures IsRun(run') && Scene(Last(run')) && NAV !in Last(run').store
    ensures ARCHETYPE in Last(run').store && PAGE in Last(run').store && ARCHETYPE in Last(run).store
    ensures var s, t := Last(run), Last(run');
      && t.queue == {ARCHETYPE}
      && t.store[ARCHETYPE].status == s.store[ARCHETYPE].status && SameMeta(s.store[ARCHETYPE], t.store[ARCHETYPE])
      && !t.store[PAGE].status.ready
  {
    hide Due, Notified, WellFormed, IsRun;
    var s := Last(run);
    var gone := DeleteNavigation(run);
    var t := Last(gone);
    SceneWithout(s, t);
    SceneWellFormed(t);
    SceneDue(t);
    SceneEvents(t);
    PageGeneration(t);
    run' := PassTwice(gone, PAGE);
  }

  lemma PageGeneration(s: State)
    requires Scene(s) && PAGE in s.store
    ensures Due(s.store, PAGE).observed == s.store[PAGE].gen
  {
    DueIsEval(s.store, PAGE);
  }

  /** The navigation comes back exactly as it was. */
  lemma RegainNavigation(run: seq<State>) returns (run': seq<State>)
    requires IsRun(run) && Scene(Last(run)) && NAV !in Last(run).store && Last(run).queue == {ARCHETYPE}
    ensures IsRun(run') && Scene(Last(run')) && NAV in Last(run').store
    ensures var s, t := Last(run), Last(run');
      && t.queue == {ARCHETYPE}
      && t.store[NAV].status == Status(true, map[], 1, true) && t.store[NAV].gen == 1 && !t.store[NAV].up
      && t.store[ARCHETYPE].status == s.store[ARCHETYPE].status && SameMeta(s.store[ARCHETYPE], t.store[ARCHETYPE])
      && t.store[PAGE].status == s.store[PAGE].status
  {
    hide Notified, Due, IsRun, WellFormed;
    var s := Last(run);
    WatchedSets();
    SceneWellFormed(s);
    var back := CreateOne(run, NAV, NAV_SPEC);
    var t := Last(back);
    assert t.store.Keys - {NAV} == {ARCHETYPE, PAGE};
    SceneEvents(t);
    NavDue(t);
    run' := PassTwice(back, NAV);
  }

  /** In both scenes the archetype sees the same navigation, so the same status is due. */
  lemma ArchetypeDueAgain(s: State, t: State)
    requires Scene(s) && Scene(t) && NAV in s.store && NAV in t.store
    requires s.store[NAV].status == t.store[NAV].status && SameMeta(s.store[NAV], t.store[NAV])
    requires s.store[ARCHETYPE].status == t.store[ARCHETYPE].status
    requires SameMeta(s.store[ARCHETYPE], t.store[ARCHETYPE])
    ensures Due(t.store, ARCHETYPE) == Due(s.store, ARCHETYPE)
  {
    hide Due, WellFormed;
    SceneWellFormed(s);
    SceneWellFormed(t);
    assert Level(PAGE.kind.base) > Level(PageArchetype);
    assert SameBelow(s.store, t.store, ARCHETYPE);
    SameDue(s.store, t.store, ARCHETYPE);
  }

  /** Quiescence does not imply agreement: a reachable state with an empty queue and no pass in
      flight, in which the page is recorded not Ready and would be recomputed Ready. */
  lemma QuiescentDisagreement() returns (run: seq<State>)
    ensures IsRun(run) && Quiescent(Last(run)) && PAGE in Last(run).store
    ensures !Last(run).store[PAGE].status.ready && Recomputed(Last(run).store, PAGE)
  {
    hide Due, IsRun, WellFormed, Recomputed;
    var prepared := Prepare();
    SceneWellFormed(Last(prepared));
    var lost := LoseNavigation(prepared);
    SceneWellFormed(Last(lost));
    var back := RegainNavigation(lost);
    SceneWellFormed(Last(back));
    ArchetypeDueAgain(Last(prepared), Last(back));
    run := QuietPass(back, ARCHETYPE);
    SceneWellFormed(Last(run));
    SceneDue(Last(run));
  }
}
