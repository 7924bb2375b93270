/** The readiness graph as a state machine.

    Users create, edit and delete objects; a work queue holds the objects to reconcile; a pass
    reads its object, then one referenced object at a time, and ends with one status write that
    fails when the object changed meanwhile. Other steps interleave freely with the steps of a
    pass, but each object has at most one pass in flight. A status write raises a watch event
    only when it changes the recorded status, which is Ready, the attributes and the observed
    generation. */
module Readiness {
  import opened Options
  import opened Objects
  import opened Needs

  /** `judged` says that a Ready condition has been recorded, true or not. */
  datatype Status = Status(ready: bool, attrs: map<string, nat>, observed: nat, judged: bool)

  const UNJUDGED := Status(false, map[], 0, false)

  /** History: a lookup that succeeded, and when. */
  datatype Reading = Reading(need: Need, at: nat)

  /** History: the pass that recorded the status. */
  datatype Basis = Basis(spec: Spec, begun: nat, ended: nat, readings: seq<Reading>)

  /** `up` is an oracle for a host: whether the resources it owns could be written and report
      ready. `held` says that a host carries the host finalizer; other kinds carry none and are
      held from the start. */
  datatype Object = Object(spec: Spec, gen: nat, rv: nat, up: bool, held: bool, status: Status, basis: Option<Basis>)

  type Store = map<Id, Object>

  /** A pass in flight: the object as it was read, the lookups that remain, the attributes.
      `complete` says that a utility page knows its archetype's navigations. When the pass has
      failed, `todo[0]` is the lookup that stopped it. */
  datatype Pass = Pass(start: Object, begun: nat, readings: seq<Reading>, todo: seq<Entry>,
                       complete: bool, failed: bool, attrs: map<string, nat>, got: map<string, nat>)

  /** `armed` holds the objects with a requeue timer or a back-off pending. `skipped` is
      history: the objects whose last pass was stopped by a navigation inherited from the
      archetype, an object that no watch of a utility page covers. */
  datatype State = State(store: Store, queue: set<Id>, passes: map<Id, Pass>,
                         armed: set<Id>, skipped: set<Id>, clock: nat)

  datatype Action =
    | Create(id: Id, spec: Spec)
    | Edit(id: Id, spec: Spec)
    | Delete(id: Id)
    | Report(id: Id, up: bool)
    | Fire(id: Id)
    | Admit(id: Id, recorded: bool)
    | Begin(id: Id, names: seq<string>)
    | Read(id: Id, names: seq<string>)
    | Finish(id: Id)

  const Init := State(map[], {}, map[], {}, {}, 0)

  // ---------- lookups ----------

  /** The result of a lookup: whether the pass may go on, and the generation it records. */
  datatype Obs = Obs(ok: bool, gen: Option<nat>)

  predicate PageOfType(o: Object, pageType: PageType) {
    o.spec.PageSpec? && o.spec.pageType == pageType
  }

  function Observe(store: Store, id: Id, need: Need): Obs {
    var found := need.target.Some? && need.target.value in store;
    match need.mode
    case MustBeReady =>
      if found && store[need.target.value].status.ready
      then Obs(true, Some(store[need.target.value].gen)) else Obs(false, None)
    case SecretAccepted(accepted) =>
      if found
      then Obs(store[need.target.value].spec.SecretSpec? && store[need.target.value].spec.content in accepted,
               Some(store[need.target.value].gen))
      else Obs(false, None)
    case PackageAccepted(verdict) => Obs(verdict, None)
    case PageReady(pageType) =>
      if found && store[need.target.value].status.ready && PageOfType(store[need.target.value], pageType)
      then Obs(true, Some(store[need.target.value].gen)) else Obs(false, None)
    case DefaultPage(pageType) =>
      if !found then Obs(true, None)
      else if PageOfType(store[need.target.value], pageType)
      then Obs(true, Some(store[need.target.value].gen)) else Obs(false, None)
    case MayExist => Obs(true, if found then Some(store[need.target.value].gen) else None)
    case ChildrenUp => Obs(id in store && store[id].up, None)
  }

  predicate Holds(store: Store, id: Id, need: Need) {
    Observe(store, id, need).ok
  }

  // ---------- a pass ----------

  function StartPass(id: Id, o: Object, names: seq<string>, clock: nat): Pass {
    Pass(o, clock, [], Plan(id, o.spec, names), !o.spec.PageSpec?, false, o.status.attrs, map[])
  }

  /** One lookup. A secret's attribute is written even when its package is then rejected. */
  function Consume(p: Pass, obs: Obs, clock: nat): Pass
    requires p.todo != []
  {
    var e := p.todo[0];
    var got := if obs.gen.Some? && e.attr.Some? then p.got[e.attr.value := obs.gen.value] else p.got;
    var commit := e.commit && (obs.ok || e.need.mode.SecretAccepted?);
    p.(attrs := if commit then p.attrs + got else p.attrs,
       got := if commit then map[] else got,
       failed := !obs.ok,
       todo := if obs.ok then p.todo[1..] else p.todo,
       readings := if obs.ok then p.readings + [Reading(e.need, clock)] else p.readings)
  }

  /** The navigations of the archetype that the next lookup of a utility page finds. */
  function Inherited(store: Store, p: Pass): Navs
    requires p.todo != []
  {
    var t := p.todo[0].need.target;
    if t.Some? && t.value in store then NavsOf(store[t.value].spec) else map[]
  }

  function MergedNavs(store: Store, p: Pass): Navs
    requires p.todo != []
  {
    Inherited(store, p) + if p.start.spec.PageSpec? then p.start.spec.navs else map[]
  }

  function ReadNext(store: Store, id: Id, p: Pass, names: seq<string>, clock: nat): Pass
    requires p.todo != [] && (p.complete || p.start.spec.PageSpec?)
  {
    var q := Consume(p, Observe(store, id, p.todo[0].need), clock);
    if q.failed || p.complete then q
    else q.(complete := true, todo := PagePlan(id, p.start.spec, Inherited(store, p), names))
  }

  predicate Finished(p: Pass) {
    p.failed || p.todo == []
  }

  /** The status that the deferred write records. */
  function Outcome(p: Pass): Status {
    Status(!p.failed, p.attrs, p.start.gen, true)
  }

  // ---------- watch events ----------

  /** The requests raised by a change of `id`: the object itself, and every object with a
      registered reference to it. */
  function Notified(store: Store, id: Id): set<Id> {
    (if id.kind.base == Secret then {} else {id})
    + set r | r in store && id in Watched(r, store[r].spec)
  }

  // ---------- steps ----------

  ghost predicate Enabled(s: State, a: Action) {
    match a
    case Create(id, spec) => id !in s.store && WellFormed(id, spec)
    case Edit(id, spec) => id in s.store && WellFormed(id, spec)
    case Delete(id) => id in s.store
    case Report(id, _) => id in s.store && id.kind.base == Host
    case Fire(id) => id in s.armed
    case Admit(id, _) => id in s.queue && id !in s.passes && id in s.store && !s.store[id].held
    case Begin(id, names) =>
      && id in s.queue && id !in s.passes
      && (id in s.store ==> s.store[id].held && Visits(names, NavsOf(s.store[id].spec).Keys))
    case Read(id, names) =>
      && id in s.passes && !Finished(s.passes[id])
      && (s.passes[id].complete ||
          (s.passes[id].start.spec.PageSpec? && Visits(names, MergedNavs(s.store, s.passes[id]).Keys)))
    case Finish(id) => id in s.passes && Finished(s.passes[id])
  }

  function Changed(s: State, id: Id, o: Object): State {
    var store := s.store[id := o];
    s.(store := store, queue := s.queue + Notified(store, id))
  }

  function FinishPass(s: State, id: Id): State
    requires id in s.passes && Finished(s.passes[id])
  {
    var p := s.passes[id];
    var t := s.(passes := s.passes - {id});
    if id !in s.store || s.store[id].rv != p.start.rv then t.(queue := t.queue + {id})
    else
      var o := s.store[id].(status := Outcome(p),
                            basis := Some(Basis(p.start.spec, p.begun, s.clock, p.readings)));
      var u := t.(armed := if p.failed then t.armed + {id} else t.armed,
                  skipped := if p.failed && p.todo != [] && p.todo[0].need !in DirectNeeds(id, p.start.spec)
                             then t.skipped + {id} else t.skipped - {id});
      if Outcome(p) == s.store[id].status then u.(store := u.store[id := o])
      else Changed(u, id, o.(rv := s.clock))
  }

  function Apply(s: State, a: Action): State
    requires Enabled(s, a)
  {
    match a
    case Create(id, spec) =>
      Changed(s, id, Object(spec, if id.kind.base == Secret then 0 else 1, s.clock, false,
                            id.kind.base != Host, UNJUDGED, None))
    case Edit(id, spec) =>
      var o := s.store[id];
      Changed(s, id, o.(spec := spec, rv := s.clock,
                        gen := if spec == o.spec || id.kind.base == Secret then o.gen else o.gen + 1))
    case Delete(id) =>
      var store := s.store - {id};
      s.(store := store, queue := s.queue + Notified(store, id))
    case Report(id, up) =>
      Changed(s, id, s.store[id].(up := up))
    case Fire(id) => s.(armed := s.armed - {id}, queue := s.queue + {id})
    case Admit(id, recorded) =>
      // The first pass over a host only adds the finalizer and returns before it sets any
      // condition. The deferred status write then records the generation, unless the host changed
      // in between.
      var o := s.store[id];
      Changed(s, id, o.(held := true, rv := s.clock,
                        status := if recorded then o.status.(observed := o.gen) else o.status))
    case Begin(id, names) =>
      var t := s.(queue := s.queue - {id});
      if id !in s.store || id.kind.base == Secret then t
      else t.(passes := t.passes[id := StartPass(id, s.store[id], names, s.clock)])
    case Read(id, names) =>
      s.(passes := s.passes[id := ReadNext(s.store, id, s.passes[id], names, s.clock)])
    case Finish(id) => FinishPass(s, id)
  }

  function Next(s: State, a: Action): State
    requires Enabled(s, a)
  {
    Apply(s, a).(clock := s.clock + 1)
  }

  /** A run: `run[i + 1]` follows from `run[i]` by some step. */
  ghost predicate IsRun(run: seq<State>) {
    && run != [] && run[0] == Init
    && forall i :: 0 <= i < |run| - 1 ==> Follows(run[i], run[i + 1])
  }

  ghost predicate Follows(s: State, t: State) {
    exists a :: Enabled(s, a) && t == Next(s, a)
  }

  // ---------- the value a pass recomputes ----------

  predicate AllDirectHold(store: Store, id: Id)
    requires id in store
  {
    forall n :: n in DirectNeeds(id, store[id].spec) ==> Holds(store, id, n)
  }

  /** The navigations a utility page inherits from the archetype it finds. */
  function InheritedNeeds(store: Store, id: Id): set<Need>
    requires id in store
  {
    var spec := store[id].spec;
    if spec.PageSpec? && Target(id, spec.archetype).Some? && Target(id, spec.archetype).value in store
    then NavNeeds(id, InheritedNavs(NavsOf(store[Target(id, spec.archetype).value].spec), spec.navs))
    else {}
  }

  /** The Ready value that a pass over the store, undisturbed, would record for `id`. */
  predicate Recomputed(store: Store, id: Id)
    requires id in store
  {
    && AllDirectHold(store, id)
    && forall n :: n in InheritedNeeds(store, id) ==> Holds(store, id, n)
  }

  // ---------- invariants ----------

  ghost predicate PassShape(id: Id, p: Pass, clock: nat) {
    && id.kind.base != Secret && WellFormed(id, p.start.spec)
    && p.start.rv < clock
    && (p.complete || p.start.spec.PageSpec?)
    && (p.failed ==> p.todo != [])
    && (!p.complete ==> p.todo == Plan(id, p.start.spec, []) && p.got == map[])
    && (forall n :: n in NeedsOf(p.todo) ==> Below(id, n))
    && (!p.start.spec.PageSpec? ==> NeedsOf(p.todo) <= DirectNeeds(id, p.start.spec))
  }

  ghost predicate StoreShape(store: Store, clock: nat) {
    forall id :: id in store ==> WellFormed(id, store[id].spec) && store[id].rv < clock
  }

  ghost predicate PassesShape(passes: map<Id, Pass>, clock: nat) {
    forall id :: id in passes ==> PassShape(id, passes[id], clock)
  }

  /** An object whose resourceVersion is the one a pass read has not changed since. */
  ghost predicate Versioned(store: Store, passes: map<Id, Pass>) {
    forall id :: id in passes && id in store && store[id].rv == passes[id].start.rv
      ==> SameRecord(store[id], passes[id].start)
  }

  ghost predicate Shape(s: State) {
    && StoreShape(s.store, s.clock) && PassesShape(s.passes, s.clock) && Versioned(s.store, s.passes)
    && (forall id :: id in s.skipped ==> id.kind.base == UtilityPage)
  }

  ghost predicate SameRecord(o: Object, start: Object) {
    o.spec == start.spec && o.gen == start.gen && o.status == start.status
  }

  /** No event since the last pass: the record agrees with the needs the object states itself. */
  ghost predicate Settled(s: State, id: Id)
    requires id in s.store
  {
    var ready := s.store[id].status.ready;
    && (ready ==> AllDirectHold(s.store, id))
    && (!ready ==> !AllDirectHold(s.store, id) || id in s.skipped)
    && (id in s.skipped ==> !ready && id in s.armed)
  }

  /** What the pass read so far still holds, and the lookup that stopped it still fails. */
  ghost predicate StillTrue(store: Store, id: Id, p: Pass, needs: set<Need>) {
    && (p.complete ==> forall n :: n in needs ==> Holds(store, id, n) || n in NeedsOf(p.todo))
    && (p.failed && p.todo != [] && p.todo[0].need in needs ==> !Holds(store, id, p.todo[0].need))
  }

  /** No event since the pass began. */
  ghost predicate Undisturbed(s: State, id: Id)
    requires id in s.store && id in s.passes
  {
    && s.store[id].rv == s.passes[id].start.rv
    && StillTrue(s.store, id, s.passes[id], DirectNeeds(id, s.passes[id].start.spec))
  }

  ghost predicate Tracked(s: State, id: Id)
    requires id in s.store && Shape(s)
  {
    || id.kind.base == Secret
    || id in s.queue
    || (id in s.passes && Undisturbed(s, id))
    || (id !in s.passes && Settled(s, id))
  }

  ghost predicate Inv(s: State) {
    Shape(s) && forall id :: id in s.store ==> Tracked(s, id)
  }

  // ---------- what a change leaves alone ----------

  /** What a lookup sees of an object. */
  ghost predicate SameFace(store: Store, store': Store, x: Id) {
    && (x in store <==> x in store')
    && (x in store ==>
          && store[x].spec == store'[x].spec && store[x].gen == store'[x].gen
          && store[x].status == store'[x].status && store[x].up == store'[x].up)
  }

  lemma SameLookup(store: Store, store': Store, id: Id, n: Need)
    requires n.target.Some? && n.mode != MayExist ==> SameFace(store, store', n.target.value)
    requires SameFace(store, store', id)
    ensures Holds(store', id, n) == Holds(store, id, n)
  {
  }

  /** A change of `x` alone, which `r` does not watch or cannot see, changes none of the needs
      `r` states. */
  lemma UnseenChange(store: Store, store': Store, x: Id, r: Id, needs: set<Need>)
    requires r in store && r in store' && r != x
    requires store - {x} == store' - {x}
    requires needs == DirectNeeds(r, store[r].spec)
    requires x !in Watched(r, store[r].spec) || SameFace(store, store', x)
    ensures store'[r] == store[r]
    ensures forall n :: n in needs ==> Holds(store', r, n) == Holds(store, r, n)
  {
    forall y | y != x ensures SameFace(store, store', y) {
      AwayFrom(store, store', x, y);
    }
    AwayFrom(store, store', x, r);
    forall n | n in needs ensures Holds(store', r, n) == Holds(store, r, n) {
      if n.target == Some(x) && n.mode != MayExist {
        assert x in Watched(r, store[r].spec);
      }
      SameLookup(store, store', r, n);
    }
  }

  lemma AwayFrom(store: Store, store': Store, x: Id, y: Id)
    requires store - {x} == store' - {x} && y != x
    ensures y in store <==> y in store'
    ensures y in store ==> store[y] == store'[y]
  {
    assert y in store <==> y in store - {x};
    assert y in store' <==> y in store' - {x};
    if y in store {
      assert (store - {x})[y] == (store' - {x})[y];
    }
  }

  /** What `Tracked` says of `r` survives a step that changes only `x`, raises its events, and
      leaves the bookkeeping of `r` alone. */
  lemma OthersStayTracked(s: State, t: State, x: Id, r: Id)
    requires Shape(s) && Shape(t)
    requires r in s.store && r in t.store && r != x && Tracked(s, r)
    requires s.store - {x} == t.store - {x}
    requires s.queue - {x} <= t.queue
    requires x in Watched(r, s.store[r].spec) ==> r in t.queue || SameFace(s.store, t.store, x)
    requires (r in s.passes <==> r in t.passes) && (r in s.passes ==> s.passes[r] == t.passes[r])
    requires (r in s.skipped <==> r in t.skipped) && (r in s.armed ==> r in t.armed)
    ensures Tracked(t, r)
  {
    if r !in t.queue && r.kind.base != Secret {
      UnseenChange(s.store, t.store, x, r, DirectNeeds(r, s.store[r].spec));
    }
  }

  // ---------- every step keeps the invariants ----------

  lemma StartShape(id: Id, o: Object, names: seq<string>, clock: nat)
    requires WellFormed(id, o.spec) && id.kind.base != Secret && o.rv < clock
    requires Visits(names, NavsOf(o.spec).Keys)
    ensures PassShape(id, StartPass(id, o, names, clock), clock)
  {
    PlanReadsDirectNeeds(id, o.spec, names);
    forall n | n in NeedsOf(Plan(id, o.spec, names)) ensures Below(id, n) {
      DirectNeedsBelow(id, o.spec, n);
    }
  }

  lemma TailNeeds(entries: seq<Entry>)
    requires entries != []
    ensures NeedsOf(entries) == {entries[0].need} + NeedsOf(entries[1..])
  {
    assert entries == [entries[0]] + entries[1..];
    ConcatNeeds([entries[0]], entries[1..]);
  }

  lemma PageBase(id: Id, spec: Spec)
    requires WellFormed(id, spec) && spec.PageSpec?
    ensures id.kind.base == UtilityPage
  {
  }

  lemma LeftFits(aid: Id, inherited: Navs, own: Navs)
    requires NavsFit(aid, inherited)
    ensures NavsFit(aid, InheritedNavs(inherited, own))
  {
  }

  lemma AllDirectBelow(id: Id, spec: Spec)
    requires WellFormed(id, spec)
    ensures forall n :: n in DirectNeeds(id, spec) ==> Below(id, n)
  {
    hide DirectNeeds, Below, WellFormed;
    forall n | n in DirectNeeds(id, spec) ensures Below(id, n) {
      DirectNeedsBelow(id, spec, n);
    }
  }

  lemma OpenedPlanBelow(id: Id, spec: Spec, aid: Id, inherited: Navs, names: seq<string>)
    requires WellFormed(id, spec) && spec.PageSpec?
    requires NavsFit(aid, inherited)
    requires Visits(names, (inherited + spec.navs).Keys)
    ensures forall n :: n in NeedsOf(PagePlan(id, spec, inherited, names)) ==> Below(id, n)
  {
    PageBase(id, spec);
    hide *;
    var left := InheritedNavs(inherited, spec.navs);
    PagePlanReads(id, spec, inherited, names);
    LeftFits(aid, inherited, spec.navs);
    NavigationsAreLow(id);
    NavNeedsBelow(id, aid, left);
    AllDirectBelow(id, spec);
    PartOfUnion(id, RefNeed(id, spec.archetype), NeedsOf(PagePlan(id, spec, inherited, names)),
                DirectNeeds(id, spec), NavNeeds(id, left));
  }

  lemma NavigationsAreLow(id: Id)
    requires id.kind.base == UtilityPage
    ensures Level(id.kind.base) > Level(PageNavigation)
  {
  }

  lemma PartOfUnion(id: Id, x: Need, a: set<Need>, b: set<Need>, c: set<Need>)
    requires {x} + a == b + c
    requires forall n :: n in b ==> Below(id, n)
    requires forall n :: n in c ==> Below(id, n)
    ensures forall n :: n in a ==> Below(id, n)
  {
    hide Below;
    assert forall n :: n in a ==> n in {x} + a;
  }

  lemma InheritedFits(store: Store, id: Id, p: Pass)
    requires forall x :: x in store ==> WellFormed(x, store[x].spec)
    requires p.todo != [] && p.todo[0].need.target.Some?
    ensures NavsFit(p.todo[0].need.target.value, Inherited(store, p))
  {
    var t := p.todo[0].need.target.value;
    if t in store {
      assert WellFormed(t, store[t].spec);
    }
  }

  lemma ReadShape(s: State, id: Id, names: seq<string>)
    requires Shape(s) && Enabled(s, Read(id, names))
    ensures PassShape(id, ReadNext(s.store, id, s.passes[id], names, s.clock), s.clock)
  {
    hide WellFormed, DirectNeeds, PagePlan, Below;
    var p := s.passes[id];
    var q := Consume(p, Observe(s.store, id, p.todo[0].need), s.clock);
    TailNeeds(p.todo);
    assert forall n :: n in NeedsOf(q.todo) ==> n in NeedsOf(p.todo);
    if !p.complete && !q.failed {
      InheritedFits(s.store, id, p);
      OpenedPlanBelow(id, p.start.spec, p.todo[0].need.target.value, Inherited(s.store, p), names);
    }
  }

  lemma LookupStillTrue(store: Store, id: Id, p: Pass, needs: set<Need>, clock: nat)
    requires p.todo != [] && !p.failed && p.complete && StillTrue(store, id, p, needs)
    ensures StillTrue(store, id, Consume(p, Observe(store, id, p.todo[0].need), clock), needs)
  {
    TailNeeds(p.todo);
  }

  lemma OpeningStillTrue(store: Store, id: Id, p: Pass, names: seq<string>, clock: nat)
    requires !p.failed && !p.complete && p.start.spec.PageSpec? && p.todo == Plan(id, p.start.spec, [])
    requires Visits(names, MergedNavs(store, p).Keys)
    ensures StillTrue(store, id, ReadNext(store, id, p, names, clock), DirectNeeds(id, p.start.spec))
  {
    PagePlanReads(id, p.start.spec, Inherited(store, p), names);
  }

  lemma ReadKeepsUndisturbed(s: State, id: Id, names: seq<string>)
    requires Shape(s) && Enabled(s, Read(id, names))
    requires id in s.store && Undisturbed(s, id)
    ensures Undisturbed(Next(s, Read(id, names)), id)
  {
    var p := s.passes[id];
    assert PassShape(id, p, s.clock);
    if p.complete {
      LookupStillTrue(s.store, id, p, DirectNeeds(id, p.start.spec), s.clock);
    } else {
      OpeningStillTrue(s.store, id, p, names, s.clock);
    }
  }

  lemma StoreShapeKept(s: State, a: Action)
    requires Shape(s) && Enabled(s, a)
    ensures StoreShape(Next(s, a).store, s.clock + 1)
  {
    var t := Next(s, a);
    forall id | id in t.store ensures WellFormed(id, t.store[id].spec) && t.store[id].rv < s.clock + 1 {
      if id != a.id {
        StepLocal(s, a);
        AwayFrom(s.store, t.store, a.id, id);
      }
    }
  }

  lemma PassesShapeKept(s: State, a: Action)
    requires Shape(s) && Enabled(s, a)
    ensures PassesShape(Next(s, a).passes, s.clock + 1)
  {
    hide WellFormed, DirectNeeds, Plan, Below, Observe, Notified, StartPass, ReadNext;
    var t := Next(s, a);
    StepLocal(s, a);
    forall id | id in t.passes ensures PassShape(id, t.passes[id], s.clock + 1) {
      if id != a.id || (!a.Begin? && !a.Read?) {
        assert PassShape(id, s.passes[id], s.clock);
      } else if a.Begin? {
        StartShape(id, s.store[id], a.names, s.clock);
      } else {
        ReadShape(s, id, a.names);
      }
    }
  }

  lemma VersionedKept(s: State, a: Action)
    requires Shape(s) && Enabled(s, a)
    ensures Versioned(Next(s, a).store, Next(s, a).passes)
  {
    var t := Next(s, a);
    StepLocal(s, a);
    forall id | id in t.passes && id in t.store && t.store[id].rv == t.passes[id].start.rv
      ensures SameRecord(t.store[id], t.passes[id].start)
    {
      if id != a.id {
        AwayFrom(s.store, t.store, a.id, id);
      } else if !a.Begin? {
        assert PassShape(id, s.passes[id], s.clock);
      }
    }
  }

  /** Only a utility page can be stopped by a lookup its own spec does not state. */
  lemma SkipsOnlyPages(s: State, id: Id)
    requires Shape(s) && Enabled(s, Finish(id)) && id in FinishPass(s, id).skipped
    ensures id.kind.base == UtilityPage
  {
    hide DirectNeeds, WellFormed, Below, Plan, Notified;
    var p := s.passes[id];
    assert PassShape(id, p, s.clock);
    if p.todo != [] {
      assert p.todo[0].need in NeedsOf(p.todo);
    }
    if p.start.spec.PageSpec? {
      PageBase(id, p.start.spec);
    }
  }

  lemma StepKeepsShape(s: State, a: Action)
    requires Shape(s) && Enabled(s, a)
    ensures Shape(Next(s, a))
  {
    hide StoreShape, PassesShape, Versioned, Notified, StartPass, ReadNext, Outcome, WellFormed, DirectNeeds;
    StoreShapeKept(s, a);
    PassesShapeKept(s, a);
    VersionedKept(s, a);
    if a.Finish? && a.id in Next(s, a).skipped {
      SkipsOnlyPages(s, a.id);
    }
  }

  /** The object a step is about. Nothing else in the store changes. */
  lemma StepLocal(s: State, a: Action)
    requires Enabled(s, a)
    ensures s.store - {a.id} == Next(s, a).store - {a.id}
    ensures s.queue - {a.id} <= Next(s, a).queue
    ensures forall r :: r != a.id ==>
              && (r in s.passes <==> r in Next(s, a).passes)
              && (r in s.passes ==> s.passes[r] == Next(s, a).passes[r])
              && (r in s.skipped <==> r in Next(s, a).skipped)
              && (r in s.armed ==> r in Next(s, a).armed)
  {
    hide Notified, StartPass, ReadNext, Outcome, WellFormed, DirectNeeds, Visits, MergedNavs;
  }

  lemma StepKeepsInv(s: State, a: Action)
    requires Inv(s) && Enabled(s, a)
    ensures Inv(Next(s, a))
  {
    var t := Next(s, a);
    StepKeepsShape(s, a);
    StepLocal(s, a);
    forall r | r in t.store ensures Tracked(t, r) {
      if r == a.id {
        ActorStaysTracked(s, a);
      } else {
        assert r in t.store - {a.id};
        OtherKept(s, a, r);
      }
    }
  }

  /** A step that others can see queues every object that watches the changed one. */
  lemma WatchersQueued(s: State, a: Action, r: Id)
    requires Enabled(s, a) && r in s.store && r != a.id
    requires a.id in Watched(r, s.store[r].spec)
    ensures r in Next(s, a).queue || SameFace(s.store, Next(s, a).store, a.id)
  {
    StepLocal(s, a);
    var t := Next(s, a);
    AwayFrom(s.store, t.store, a.id, r);
    var watched := Watched(r, s.store[r].spec);
    assert a.id in watched && r in t.store && t.store[r] == s.store[r];
    if !SameFace(s.store, t.store, a.id) {
      assert r in Notified(t.store, a.id);
    }
  }

  lemma OtherKept(s: State, a: Action, r: Id)
    requires Inv(s) && Enabled(s, a) && Shape(Next(s, a))
    requires r in s.store && r in Next(s, a).store && r != a.id
    ensures Tracked(Next(s, a), r)
  {
    StepLocal(s, a);
    var t := Next(s, a);
    AwayFrom(s.store, t.store, a.id, r);
    var watched := Watched(r, s.store[r].spec);
    if a.id in watched {
      WatchersQueued(s, a, r);
    }
    assert Tracked(s, r);
    OthersStayTracked(s, t, a.id, r);
  }

  lemma ActorStaysTracked(s: State, a: Action)
    requires Inv(s) && Enabled(s, a) && Shape(Next(s, a)) && a.id in Next(s, a).store
    ensures Tracked(Next(s, a), a.id)
  {
    var id := a.id;
    if id.kind.base != Secret {
      match a {
        case Begin(_, names) => BegunTracked(s, id, names);
        case Read(_, names) =>
          if id !in s.queue && id in s.store {
            ReadKeepsUndisturbed(s, id, names);
          }
        case Finish(_) => FinishedTracked(s, id);
        case _ => assert id in Next(s, a).queue;
      }
    }
  }

  lemma BegunTracked(s: State, id: Id, names: seq<string>)
    requires Inv(s) && Enabled(s, Begin(id, names)) && Shape(Next(s, Begin(id, names)))
    requires id in s.store && id.kind.base != Secret
    ensures Tracked(Next(s, Begin(id, names)), id)
  {
    var t, spec := Next(s, Begin(id, names)), s.store[id].spec;
    PlanReadsDirectNeeds(id, spec, names);
    assert Undisturbed(t, id);
  }

  lemma SameHolds(s: State, t: State, id: Id, needs: set<Need>)
    requires forall y :: SameFace(s.store, t.store, y)
    ensures forall n :: n in needs ==> Holds(t.store, id, n) == Holds(s.store, id, n)
  {
    hide SameFace;
    forall n | n in needs ensures Holds(t.store, id, n) == Holds(s.store, id, n) {
      SameLookup(s.store, t.store, id, n);
    }
  }

  /** The status write after an undisturbed pass settles the object. */
  lemma FinishedTracked(s: State, id: Id)
    requires Inv(s) && Enabled(s, Finish(id)) && Shape(Next(s, Finish(id)))
    requires id in s.store && id.kind.base != Secret
    ensures Tracked(Next(s, Finish(id)), id)
  {
    hide WellFormed, DirectNeeds, Below, Observe;
    var t, p := Next(s, Finish(id)), s.passes[id];
    if id !in t.queue {
      assert Undisturbed(s, id) && PassShape(id, p, s.clock);
      OwnEvent(t.store, id);
      assert Outcome(p) == s.store[id].status;
      var needs := DirectNeeds(id, p.start.spec);
      SameHolds(s, t, id, needs);
      if !p.failed {
        assert NeedsOf(p.todo) == {};
      }
      assert Settled(t, id);
    }
  }

  lemma OwnEvent(store: Store, id: Id)
    requires id.kind.base != Secret
    ensures id in Notified(store, id)
  {
  }
}
