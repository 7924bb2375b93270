/** Every recorded Ready has a finite justification that goes back strictly in time. */
module Provenance {
  import opened Options
  import opened Objects
  import opened Needs
  import opened Readiness
  import opened Runs
  import opened Resolvers

  /** `id` was recorded Ready at moment `at` because of `kids`. */
  datatype Tree = Tree(id: Id, at: nat, kids: seq<Tree>)

  /** The lookups that ask for another object to be Ready. Default-named utility pages and the
      default translation are only asked to fit. */
  predicate AsksReady(n: Need) {
    (n.mode.MustBeReady? || n.mode.PageReady?) && n.target.Some?
  }

  ghost predicate HasRead(readings: seq<Reading>, n: Need) {
    exists i :: 0 <= i < |readings| && readings[i].need == n
  }

  ghost predicate ReadOrLeft(readings: seq<Reading>, todo: seq<Entry>, n: Need) {
    HasRead(readings, n) || n in NeedsOf(todo)
  }

  /** The lookup of the archetype by a utility page, and all it then inherited. */
  ghost predicate ArchetypeRead(run: seq<State>, id: Id, spec: Spec, r: Reading,
                                readings: seq<Reading>, todo: seq<Entry>)
    requires spec.PageSpec?
  {
    var n := RefNeed(id, spec.archetype);
    && r.need == n && n.target.Some? && r.at < |run| && n.target.value in run[r.at].store
    && forall m :: m in NavNeeds(id, InheritedNavs(NavsOf(run[r.at].store[n.target.value].spec), spec.navs))
         ==> ReadOrLeft(readings, todo, m)
  }

  /** Nothing that a pass over `spec` has to look up is missing from `readings` and `todo`. */
  ghost predicate Complete(run: seq<State>, id: Id, spec: Spec, readings: seq<Reading>, todo: seq<Entry>) {
    && (forall n :: n in DirectNeeds(id, spec) ==> ReadOrLeft(readings, todo, n))
    && (spec.PageSpec? ==>
          exists i :: 0 <= i < |readings| && ArchetypeRead(run, id, spec, readings[i], readings, todo))
  }

  /** Every reading held when it was made, between `begun` and `ended`. */
  ghost predicate Witnessed(run: seq<State>, id: Id, readings: seq<Reading>, begun: nat, ended: nat) {
    forall i :: 0 <= i < |readings| ==>
      && begun <= readings[i].at < ended && readings[i].at < |run|
      && Holds(run[readings[i].at].store, id, readings[i].need)
  }

  ghost predicate PassHistory(run: seq<State>, k: nat, id: Id, p: Pass) {
    && p.begun < k
    && Witnessed(run, id, p.readings, p.begun, k)
    && (if p.complete then Complete(run, id, p.start.spec, p.readings, p.todo) else p.readings == [])
  }

  ghost predicate BasisHistory(run: seq<State>, k: nat, id: Id, o: Object) {
    && (o.status.ready ==> o.basis.Some?)
    && (o.basis.Some? ==>
          var b := o.basis.value;
          && b.begun <= b.ended < k && WellFormed(id, b.spec)
          && Witnessed(run, id, b.readings, b.begun, b.ended)
          && (o.status.ready ==> Complete(run, id, b.spec, b.readings, [])))
  }

  ghost predicate PassesHistory(run: seq<State>, k: nat, passes: map<Id, Pass>) {
    forall id :: id in passes ==> PassHistory(run, k, id, passes[id])
  }

  ghost predicate RecordsHistory(run: seq<State>, k: nat, store: Store) {
    forall id :: id in store ==> BasisHistory(run, k, id, store[id])
  }

  ghost predicate History(run: seq<State>, k: nat)
    requires k < |run|
  {
    && run[k].clock == k
    && PassesHistory(run, k, run[k].passes)
    && RecordsHistory(run, k, run[k].store)
  }

  lemma LookupWitnessed(run: seq<State>, k: nat, id: Id, p: Pass)
    requires k < |run| && p.begun < k && p.todo != []
    requires Witnessed(run, id, p.readings, p.begun, k)
    ensures Witnessed(run, id, Consume(p, Observe(run[k].store, id, p.todo[0].need), k).readings, p.begun, k + 1)
  {
  }

  lemma LookupComplete(run: seq<State>, k: nat, id: Id, p: Pass)
    requires k < |run| && p.todo != [] && !p.failed && p.complete
    requires Complete(run, id, p.start.spec, p.readings, p.todo)
    ensures var q := Consume(p, Observe(run[k].store, id, p.todo[0].need), k);
            Complete(run, id, q.start.spec, q.readings, q.todo)
  {
    var q := Consume(p, Observe(run[k].store, id, p.todo[0].need), k);
    TailNeeds(p.todo);
    if !q.failed {
      assert q.readings[|p.readings|] == Reading(p.todo[0].need, k);
      forall n | ReadOrLeft(p.readings, p.todo, n) ensures ReadOrLeft(q.readings, q.todo, n) {
        if HasRead(p.readings, n) {
          ReadingKept(p.readings, q.readings, n);
        } else if n == p.todo[0].need {
          assert q.readings[|p.readings|].need == n;
        }
      }
      CompleteKept(run, id, p, q);
    }
  }

  lemma ReadHistory(run: seq<State>, k: nat, id: Id, names: seq<string>)
    requires k < |run| && Inv(run[k]) && History(run, k)
    requires Enabled(run[k], Read(id, names))
    ensures PassHistory(run, k + 1, id, ReadNext(run[k].store, id, run[k].passes[id], names, k))
  {
    var p := run[k].passes[id];
    var q := ReadNext(run[k].store, id, p, names, k);
    assert PassHistory(run, k, id, p) && PassShape(id, p, k);
    LookupWitnessed(run, k, id, p);
    if p.complete {
      LookupComplete(run, k, id, p);
    } else if !q.failed {
      OpenedComplete(run, k, id, p, q, names);
    }
  }

  lemma ReadingKept(a: seq<Reading>, b: seq<Reading>, n: Need)
    requires a <= b && HasRead(a, n)
    ensures HasRead(b, n)
  {
    var i :| 0 <= i < |a| && a[i].need == n;
    assert b[i].need == n;
  }

  lemma CompleteKept(run: seq<State>, id: Id, p: Pass, q: Pass)
    requires Complete(run, id, p.start.spec, p.readings, p.todo)
    requires p.start == q.start && p.readings <= q.readings
    requires forall n :: ReadOrLeft(p.readings, p.todo, n) ==> ReadOrLeft(q.readings, q.todo, n)
    ensures Complete(run, id, q.start.spec, q.readings, q.todo)
  {
    if p.start.spec.PageSpec? {
      var i :| 0 <= i < |p.readings| && ArchetypeRead(run, id, p.start.spec, p.readings[i], p.readings, p.todo);
      assert ArchetypeRead(run, id, q.start.spec, q.readings[i], q.readings, q.todo);
    }
  }

  lemma OpenedComplete(run: seq<State>, k: nat, id: Id, p: Pass, q: Pass, names: seq<string>)
    requires k < |run| && p.start.spec.PageSpec? && !p.complete && !p.failed
    requires p.todo == Plan(id, p.start.spec, []) && p.readings == []
    requires Visits(names, MergedNavs(run[k].store, p).Keys)
    requires q == ReadNext(run[k].store, id, p, names, k) && !q.failed
    ensures Complete(run, id, q.start.spec, q.readings, q.todo)
  {
    var spec := p.start.spec;
    PagePlanReads(id, spec, Inherited(run[k].store, p), names);
    assert q.readings == [Reading(RefNeed(id, spec.archetype), k)];
    assert q.readings[0].need == RefNeed(id, spec.archetype);
    assert ArchetypeRead(run, id, spec, q.readings[0], q.readings, q.todo);
  }

  lemma BeginHistory(run: seq<State>, k: nat, id: Id, o: Object, names: seq<string>)
    requires Visits(names, NavsOf(o.spec).Keys)
    ensures PassHistory(run, k + 1, id, StartPass(id, o, names, k))
  {
    PlanReadsDirectNeeds(id, o.spec, names);
  }

  lemma FinishHistory(run: seq<State>, k: nat, id: Id, p: Pass, o': Object)
    requires PassHistory(run, k, id, p) && Finished(p) && (p.complete || p.failed) && WellFormed(id, p.start.spec)
    requires o'.status == Outcome(p) && o'.basis == Some(Basis(p.start.spec, p.begun, k, p.readings))
    ensures BasisHistory(run, k + 1, id, o')
  {
    if !p.failed { assert p.todo == []; }
  }

  lemma BasisKept(run: seq<State>, k: nat, id: Id, o: Object, o': Object)
    requires BasisHistory(run, k, id, o) && o'.basis == o.basis && o'.status.ready == o.status.ready
    ensures BasisHistory(run, k + 1, id, o')
  {
  }

  lemma PassKept(run: seq<State>, k: nat, id: Id, p: Pass)
    requires PassHistory(run, k, id, p)
    ensures PassHistory(run, k + 1, id, p)
  {
    hide Complete, Holds;
  }

  /** A step leaves a pass alone, begins it, or makes its next lookup. */
  lemma PassSteps(s: State, a: Action, id: Id)
    requires Enabled(s, a) && id in Next(s, a).passes
    ensures var t := Next(s, a);
      || (id in s.passes && t.passes[id] == s.passes[id])
      || (a.Begin? && id == a.id && id in s.store && t.passes[id] == StartPass(id, s.store[id], a.names, s.clock))
      || (a.Read? && id == a.id && t.passes[id] == ReadNext(s.store, id, s.passes[id], a.names, s.clock))
  {
    hide Notified, StartPass, ReadNext, WellFormed, Visits, DirectNeeds, MergedNavs;
  }

  lemma PassesHistoryKept(run: seq<State>, k: nat, a: Action)
    requires k + 1 < |run| && Inv(run[k]) && History(run, k)
    requires Enabled(run[k], a) && run[k + 1] == Next(run[k], a)
    ensures PassesHistory(run, k + 1, run[k + 1].passes)
  {
    hide Inv, Next, PassHistory, StartPass, ReadNext;
    var s, t := run[k], run[k + 1];
    forall id | id in t.passes ensures PassHistory(run, k + 1, id, t.passes[id]) {
      PassSteps(s, a, id);
      if id in s.passes && t.passes[id] == s.passes[id] {
        PassKept(run, k, id, s.passes[id]);
      } else if a.Begin? {
        BeginHistory(run, k, id, s.store[id], a.names);
      } else {
        ReadHistory(run, k, id, a.names);
      }
    }
  }

  lemma RecordsHistoryKept(run: seq<State>, k: nat, a: Action)
    requires k + 1 < |run| && Inv(run[k]) && History(run, k)
    requires Enabled(run[k], a) && run[k + 1] == Next(run[k], a)
    ensures RecordsHistory(run, k + 1, run[k + 1].store)
  {
    hide Witnessed, Complete, Notified, StartPass, ReadNext, WellFormed, DirectNeeds;
    var s, t := run[k], run[k + 1];
    StepLocal(s, a);
    forall id | id in t.store ensures BasisHistory(run, k + 1, id, t.store[id]) {
      if id != a.id {
        AwayFrom(s.store, t.store, a.id, id);
        BasisKept(run, k, id, s.store[id], t.store[id]);
      } else if a.Finish? && s.store[id].rv == s.passes[id].start.rv {
        assert PassShape(id, s.passes[id], k);
        FinishHistory(run, k, id, s.passes[id], t.store[id]);
      } else if id in s.store {
        BasisKept(run, k, id, s.store[id], t.store[id]);
      }
    }
  }

  lemma StepKeepsHistory(run: seq<State>, k: nat, a: Action)
    requires k + 1 < |run| && Inv(run[k]) && History(run, k)
    requires Enabled(run[k], a) && run[k + 1] == Next(run[k], a)
    ensures History(run, k + 1)
  {
    PassesHistoryKept(run, k, a);
    RecordsHistoryKept(run, k, a);
  }

  lemma {:induction false} RunHasHistory(run: seq<State>, k: nat)
    requires IsRun(run) && k < |run|
    ensures History(run, k)
  {
    if k > 0 {
      RunHasHistory(run, k - 1);
      RunKeepsInv(run, k - 1);
      assert Follows(run[k - 1], run[k - 1 + 1]);
      var a :| Enabled(run[k - 1], a) && run[k] == Next(run[k - 1], a);
      StepKeepsHistory(run, k - 1, a);
    }
  }

  // ---------- what a pass that recorded Ready has found ----------

  ghost predicate During(run: seq<State>, b: Basis, j: nat) {
    b.begun <= j < b.ended && j < |run|
  }

  ghost predicate Found(run: seq<State>, id: Id, b: Basis, ref: Option<Ref>) {
    ref.Some? ==> exists j: nat :: During(run, b, j) && Answers(run[j].store, id, ref.value)
  }

  ghost predicate FoundPage(run: seq<State>, id: Id, b: Basis, ref: Option<Ref>, pageType: PageType) {
    ref.Some? ==> exists j: nat :: During(run, b, j) && PageFits(run[j].store, id, ref, pageType)
  }

  ghost predicate FoundNavs(run: seq<State>, id: Id, b: Basis, navs: Navs) {
    forall name :: name in navs ==> Found(run, id, b, navs[name])
  }

  /** The archetype was there and Ready, and the navigations it had then were found, except those
      that the page overrides. */
  ghost predicate FoundArchetype(run: seq<State>, id: Id, b: Basis, archetype: Ref, navs: Navs) {
    exists j: nat :: During(run, b, j) && Answers(run[j].store, id, archetype)
                && FoundNavs(run, id, b, NavsOf(run[j].store[Named(id, archetype)].spec) + navs)
  }

  /** Every reference of the spec that the pass read was found fit at some moment of the pass. */
  ghost predicate AllFound(run: seq<State>, id: Id, b: Basis) {
    match b.spec
    case SecretSpec(_) => true
    case TranslationSpec => true
    case PackagedSpec(package) =>
      package.Some? ==> exists j: nat :: During(run, b, j) && PackageFits(run[j].store, id, package.value)
    case StyledSpec(lib) => Found(run, id, b, lib)
    case ArchetypeSpec(footer, header, navs, lib) =>
      && Found(run, id, b, footer) && Found(run, id, b, header)
      && FoundNavs(run, id, b, navs) && Found(run, id, b, lib)
    case PageSpec(_, archetype, contents, header, footer, navs, lib) =>
      && FoundArchetype(run, id, b, archetype, navs)
      && (forall i :: 0 <= i < |contents| && contents[i].AppContent? ==> Found(run, id, b, Some(contents[i].app)))
      && Found(run, id, b, header) && Found(run, id, b, footer) && Found(run, id, b, lib)
    case HostSpec(announcement, error, login, theme, lib, translations) =>
      && FoundPage(run, id, b, announcement, Announcement)
      && FoundPage(run, id, b, error, Error)
      && FoundPage(run, id, b, login, Login)
      && Found(run, id, b, theme) && Found(run, id, b, lib)
      && (forall i :: 0 <= i < |translations| ==> Found(run, id, b, Some(translations[i])))
      && exists j: nat :: During(run, b, j) && id in run[j].store && run[j].store[id].up
  }

  /** A lookup that was read did hold during the pass. */
  lemma ReadMoment(run: seq<State>, id: Id, b: Basis, n: Need) returns (j: nat)
    requires Witnessed(run, id, b.readings, b.begun, b.ended) && ReadOrLeft(b.readings, [], n)
    ensures During(run, b, j) && Holds(run[j].store, id, n)
  {
    assert HasRead(b.readings, n);
    var i :| 0 <= i < |b.readings| && b.readings[i].need == n;
    j := b.readings[i].at;
  }

  lemma ReadRefFound(run: seq<State>, id: Id, b: Basis, ref: Ref)
    requires Witnessed(run, id, b.readings, b.begun, b.ended) && ReadOrLeft(b.readings, [], RefNeed(id, ref))
    ensures Found(run, id, b, Some(ref))
  {
    var j := ReadMoment(run, id, b, RefNeed(id, ref));
    AnswersHolds(run[j].store, id, ref);
  }

  lemma ReadOptionFound(run: seq<State>, id: Id, b: Basis, ref: Option<Ref>)
    requires Witnessed(run, id, b.readings, b.begun, b.ended)
    requires forall n :: n in OptionNeeds(id, ref) ==> ReadOrLeft(b.readings, [], n)
    ensures Found(run, id, b, ref)
  {
    hide Witnessed, ReadOrLeft;
    if ref.Some? {
      assert RefNeed(id, ref.value) in OptionNeeds(id, ref);
      ReadRefFound(run, id, b, ref.value);
    }
  }

  lemma ReadPageFound(run: seq<State>, id: Id, b: Basis, ref: Option<Ref>, pageType: PageType)
    requires Witnessed(run, id, b.readings, b.begun, b.ended)
    requires forall n :: n in PageNeeds(id, ref, pageType) ==> ReadOrLeft(b.readings, [], n)
    ensures FoundPage(run, id, b, ref, pageType)
  {
    hide Witnessed, ReadOrLeft;
    if ref.Some? {
      var n := PageNeed(id, ref.value, pageType);
      assert n in PageNeeds(id, ref, pageType);
      var j := ReadMoment(run, id, b, n);
      PageFitsHolds(run[j].store, id, ref.value, pageType);
    }
  }

  lemma ReadNavsFound(run: seq<State>, id: Id, b: Basis, navs: Navs)
    requires Witnessed(run, id, b.readings, b.begun, b.ended)
    requires forall n :: n in NavNeeds(id, navs) ==> ReadOrLeft(b.readings, [], n)
    ensures FoundNavs(run, id, b, navs)
  {
    hide Witnessed, ReadOrLeft;
    forall name | name in navs ensures Found(run, id, b, navs[name]) {
      if navs[name].Some? {
        assert RefNeed(id, navs[name].value) in NavNeeds(id, navs);
        ReadRefFound(run, id, b, navs[name].value);
      }
    }
  }

  lemma ReadArchetypeFound(run: seq<State>, id: Id, b: Basis)
    requires b.spec.PageSpec? && Complete(run, id, b.spec, b.readings, [])
    requires Witnessed(run, id, b.readings, b.begun, b.ended)
    ensures FoundArchetype(run, id, b, b.spec.archetype, b.spec.navs)
  {
    hide NavNeeds, NavsOf, InheritedNavs, FoundNavs, ReadOrLeft;
    var spec := b.spec;
    var i :| 0 <= i < |b.readings| && ArchetypeRead(run, id, spec, b.readings[i], b.readings, []);
    var j := b.readings[i].at;
    AnswersHolds(run[j].store, id, spec.archetype);
    var inherited := NavsOf(run[j].store[Named(id, spec.archetype)].spec);
    MergedNeeds(id, inherited, spec.navs);
    forall n | n in NavNeeds(id, inherited + spec.navs) ensures ReadOrLeft(b.readings, [], n) {
      if n in NavNeeds(id, spec.navs) {
        assert n in DirectNeeds(id, spec);
      }
    }
    ReadNavsFound(run, id, b, inherited + spec.navs);
  }

  lemma ReadHostFound(run: seq<State>, id: Id, b: Basis)
    requires b.spec.HostSpec? && Complete(run, id, b.spec, b.readings, [])
    requires Witnessed(run, id, b.readings, b.begun, b.ended)
    ensures AllFound(run, id, b)
  {
    hide Witnessed, ReadOrLeft, PageNeeds, OptionNeeds, FoundPage, Found;
    var spec := b.spec;
    var needs := DirectNeeds(id, spec);
    ReadPageFound(run, id, b, spec.announcement, Announcement);
    ReadPageFound(run, id, b, spec.error, Error);
    ReadPageFound(run, id, b, spec.login, Login);
    ReadOptionFound(run, id, b, spec.theme);
    ReadOptionFound(run, id, b, spec.scriptLibrary);
    forall i | 0 <= i < |spec.translations| ensures Found(run, id, b, Some(spec.translations[i])) {
      assert RefNeed(id, spec.translations[i]) in (set r | r in spec.translations :: RefNeed(id, r));
      assert RefNeed(id, spec.translations[i]) in needs;
      ReadRefFound(run, id, b, spec.translations[i]);
    }
    assert Need(None, ChildrenUp) in needs;
    var j := ReadMoment(run, id, b, Need(None, ChildrenUp));
  }

  lemma ReadPageSpecFound(run: seq<State>, id: Id, b: Basis)
    requires b.spec.PageSpec? && Complete(run, id, b.spec, b.readings, [])
    requires Witnessed(run, id, b.readings, b.begun, b.ended)
    ensures AllFound(run, id, b)
  {
    hide Witnessed, ReadOrLeft, OptionNeeds, Found, FoundArchetype, ArchetypeRead;
    var spec := b.spec;
    var needs := DirectNeeds(id, spec);
    ReadArchetypeFound(run, id, b);
    forall i | 0 <= i < |spec.contents| && spec.contents[i].AppContent?
      ensures Found(run, id, b, Some(spec.contents[i].app))
    {
      assert spec.contents[i] in spec.contents;
      assert RefNeed(id, spec.contents[i].app) in ContentNeeds(id, spec.contents);
      assert RefNeed(id, spec.contents[i].app) in needs;
      ReadRefFound(run, id, b, spec.contents[i].app);
    }
    ReadOptionFound(run, id, b, spec.header);
    ReadOptionFound(run, id, b, spec.footer);
    ReadOptionFound(run, id, b, spec.scriptLibrary);
  }

  /** What is recorded Ready in a run was recorded by a pass which found every reference fit. */
  lemma ReadyFoundAll(run: seq<State>, k: nat, id: Id)
    requires IsRun(run) && k < |run| && id in run[k].store && run[k].store[id].status.ready
    ensures var o := run[k].store[id];
      && o.basis.Some? && o.basis.value.begun <= o.basis.value.ended < k
      && WellFormed(id, o.basis.value.spec) && AllFound(run, id, o.basis.value)
  {
    hide Witnessed, ReadOrLeft, OptionNeeds, NavNeeds, Found, FoundNavs, FoundPage, FoundArchetype, WellFormed;
    RunHasHistory(run, k);
    assert BasisHistory(run, k, id, run[k].store[id]);
    var b := run[k].store[id].basis.value;
    match b.spec {
      case PackagedSpec(package) =>
        if package.Some? {
          var n := PackageNeed(id, package.value);
          assert n in DirectNeeds(id, b.spec);
          var j := ReadMoment(run, id, b, n);
          assert PackageFits(run[j].store, id, package.value);
        }
      case StyledSpec(lib) => ReadOptionFound(run, id, b, lib);
      case ArchetypeSpec(footer, header, navs, lib) =>
        ReadOptionFound(run, id, b, footer);
        ReadOptionFound(run, id, b, header);
        ReadNavsFound(run, id, b, navs);
        ReadOptionFound(run, id, b, lib);
      case PageSpec(_, _, _, _, _, _, _) => ReadPageSpecFound(run, id, b);
      case HostSpec(_, _, _, _, _, _) => ReadHostFound(run, id, b);
      case _ =>
    }
  }

  // ---------- justification trees ----------

  ghost predicate KidFor(kids: seq<Tree>, r: Reading)
    requires r.need.target.Some?
  {
    exists j :: 0 <= j < |kids| && kids[j].id == r.need.target.value && kids[j].at == r.at
  }

  /** The object was recorded Ready by a pass that looked up everything its spec requires, and
      each object that had to be Ready was so at a moment inside that pass, for which `kids`
      holds a justification in turn. */
  ghost predicate Justified(run: seq<State>, t: Tree)
    decreases t
  {
    && t.at < |run| && t.id in run[t.at].store
    && var o := run[t.at].store[t.id];
       && o.status.ready && o.basis.Some?
       && var b := o.basis.value;
          && b.begun <= b.ended < t.at
          && Witnessed(run, t.id, b.readings, b.begun, b.ended)
          && Complete(run, t.id, b.spec, b.readings, [])
          && (forall i :: 0 <= i < |b.readings| && AsksReady(b.readings[i].need) ==> KidFor(t.kids, b.readings[i]))
          && (forall kid :: kid in t.kids ==> kid.at < t.at && Justified(run, kid))
  }

  lemma ReadyHasProvenance(run: seq<State>, k: nat, id: Id) returns (t: Tree)
    requires IsRun(run) && k < |run| && id in run[k].store && run[k].store[id].status.ready
    ensures t.id == id && t.at == k && Justified(run, t)
    decreases k, 1, 0
  {
    RunHasHistory(run, k);
    assert BasisHistory(run, k, id, run[k].store[id]);
    var b := run[k].store[id].basis.value;
    var kids := KidsFor(run, k, id, b.readings, b.begun, b.ended);
    t := Tree(id, k, kids);
  }

  lemma KidsFor(run: seq<State>, k: nat, id: Id, readings: seq<Reading>, begun: nat, ended: nat)
    returns (kids: seq<Tree>)
    requires IsRun(run) && ended < k < |run| && Witnessed(run, id, readings, begun, ended)
    ensures forall i :: 0 <= i < |readings| && AsksReady(readings[i].need) ==> KidFor(kids, readings[i])
    ensures forall kid :: kid in kids ==> kid.at < k && Justified(run, kid)
    decreases k, 0, |readings|
  {
    if readings == [] {
      kids := [];
    } else {
      var r, rest := readings[|readings| - 1], readings[..|readings| - 1];
      var others := KidsFor(run, k, id, rest, begun, ended);
      kids := others;
      if AsksReady(r.need) {
        var kid := ReadyHasProvenance(run, r.at, r.need.target.value);
        kids := others + [kid];
        assert kids[|others|] == kid;
      }
      forall i | 0 <= i < |readings| && AsksReady(readings[i].need) ensures KidFor(kids, readings[i]) {
        if i < |rest| {
          assert KidFor(others, rest[i]);
          var j :| 0 <= j < |others| && others[j].id == rest[i].need.target.value && others[j].at == rest[i].at;
          assert kids[j] == others[j];
        }
      }
    }
  }
}
