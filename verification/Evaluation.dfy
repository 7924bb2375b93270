/** What a pass would record if nothing disturbed it: a function of the store, whatever the
    order in which Go visits the navigation map. */
module Evaluation {
  import opened Options
  import opened Objects
  import opened Needs
  import opened Readiness

  datatype Result = Result(ok: bool, attrs: map<string, nat>, got: map<string, nat>)

  /** One lookup: `got` is what the current group gathered so far. */
  function Look(store: Store, id: Id, e: Entry, attrs: map<string, nat>, got: map<string, nat>): Result {
    var obs := Observe(store, id, e.need);
    var more := if obs.gen.Some? && e.attr.Some? then got[e.attr.value := obs.gen.value] else got;
    if e.commit && (obs.ok || e.need.mode.SecretAccepted?) then Result(obs.ok, attrs + more, map[])
    else Result(obs.ok, attrs, more)
  }

  /** The lookups `todo` made one after the other on one store. */
  function Eval(store: Store, id: Id, todo: seq<Entry>, attrs: map<string, nat>, got: map<string, nat>): Result {
    if todo == [] then Result(true, attrs, got)
    else
      var r := Look(store, id, todo[0], attrs, got);
      if r.ok then Eval(store, id, todo[1..], r.attrs, r.got) else r
  }

  lemma {:induction false} EvalConcat(store: Store, id: Id, a: seq<Entry>, b: seq<Entry>,
                                      attrs: map<string, nat>, got: map<string, nat>)
    ensures var r := Eval(store, id, a, attrs, got);
            Eval(store, id, a + b, attrs, got) == if r.ok then Eval(store, id, b, r.attrs, r.got) else r
  {
    if a == [] {
      assert a + b == b;
    } else {
      assert (a + b)[1..] == a[1..] + b;
      var r := Look(store, id, a[0], attrs, got);
      EvalConcat(store, id, a[1..], b, r.attrs, r.got);
    }
  }

  lemma LookOverwrites(store: Store, id: Id, e: Entry,
                       attrs: map<string, nat>, base: map<string, nat>, got: map<string, nat>)
    ensures var r, r0 := Look(store, id, e, base + attrs, got), Look(store, id, e, attrs, got);
            r.ok == r0.ok && r.attrs == base + r0.attrs && r.got == r0.got
  {
    var obs := Observe(store, id, e.need);
    var more := if obs.gen.Some? && e.attr.Some? then got[e.attr.value := obs.gen.value] else got;
    assert base + attrs + more == base + (attrs + more);
  }

  /** Attributes are only ever overwritten, with values that do not depend on the old ones. */
  lemma {:induction false} EvalOverwrites(store: Store, id: Id, todo: seq<Entry>,
                                          attrs: map<string, nat>, base: map<string, nat>, got: map<string, nat>)
    ensures var r, r0 := Eval(store, id, todo, base + attrs, got), Eval(store, id, todo, attrs, got);
            r.ok == r0.ok && r.attrs == base + r0.attrs && r.got == r0.got
  {
    if todo != [] {
      LookOverwrites(store, id, todo[0], attrs, base, got);
      var r := Look(store, id, todo[0], attrs, got);
      EvalOverwrites(store, id, todo[1..], r.attrs, base, r.got);
    }
  }

  /** Evaluating again on top of the result changes nothing. */
  lemma EvalIdempotent(store: Store, id: Id, todo: seq<Entry>, attrs: map<string, nat>)
    ensures var r := Eval(store, id, todo, attrs, map[]); Eval(store, id, todo, r.attrs, map[]) == r
  {
    var delta := Eval(store, id, todo, map[], map[]).attrs;
    EvalOverwrites(store, id, todo, map[], attrs, map[]);
    assert attrs + map[] == attrs;
    EvalOverwrites(store, id, todo, map[], attrs + delta, map[]);
    assert (attrs + delta) + map[] == attrs + delta;
    assert (attrs + delta) + delta == attrs + delta;
  }

  // ---------- the order of a navigation map does not matter ----------

  lemma NavAttrInjective(a: string, b: string)
    ensures NavAttr(a) == NavAttr(b) ==> a == b
  {
    var suffix := ".navigation.generation";
    if NavAttr(a) == NavAttr(b) {
      assert |a| == |b|;
      assert a == (a + suffix)[..|a|] && b == (b + suffix)[..|b|];
    }
  }

  predicate NavHolds(store: Store, id: Id, navs: Navs, name: string)
    requires name in navs
  {
    navs[name].Some? ==> Holds(store, id, RefNeed(id, navs[name].value))
  }

  function NavGen(store: Store, id: Id, navs: Navs, name: string): nat
    requires name in navs && navs[name].Some? && NavHolds(store, id, navs, name)
  {
    store[Target(id, navs[name].value).value].gen
  }

  /** `got` holds exactly the generations of the navigations in `names`. */
  ghost predicate GotNavs(store: Store, id: Id, navs: Navs, names: set<string>, got: map<string, nat>) {
    && (forall name :: name in names && name in navs && navs[name].Some? ==>
          && NavHolds(store, id, navs, name)
          && NavAttr(name) in got && got[NavAttr(name)] == NavGen(store, id, navs, name))
    && (forall key :: key in got ==>
          exists name :: name in names && name in navs && navs[name].Some? && key == NavAttr(name))
  }

  lemma GotOneMore(store: Store, id: Id, navs: Navs, before: set<string>, got: map<string, nat>, name: string)
    requires GotNavs(store, id, navs, before, got) && name in navs && navs[name].Some?
    requires NavHolds(store, id, navs, name)
    ensures GotNavs(store, id, navs, before + {name}, got[NavAttr(name) := NavGen(store, id, navs, name)])
  {
    hide Observe, NavAttr;
    forall m ensures NavAttr(m) == NavAttr(name) ==> m == name {
      NavAttrInjective(m, name);
    }
  }

  lemma GotNoMore(store: Store, id: Id, navs: Navs, before: set<string>, got: map<string, nat>, name: string)
    requires GotNavs(store, id, navs, before, got) && (name in navs ==> navs[name].None?)
    ensures GotNavs(store, id, navs, before + {name}, got)
  {
    hide NavHolds, NavAttr;
  }

  lemma NavGenIs(store: Store, id: Id, navs: Navs, name: string)
    requires name in navs && navs[name].Some? && NavHolds(store, id, navs, name)
    ensures Observe(store, id, RefNeed(id, navs[name].value)).gen == Some(NavGen(store, id, navs, name))
  {
  }

  lemma {:induction false} NavGroupEval(store: Store, id: Id, navs: Navs, names: seq<string>,
                                        attrs: map<string, nat>, before: set<string>, got: map<string, nat>)
    requires GotNavs(store, id, navs, before, got)
    ensures var r := Eval(store, id, NavGroup(id, navs, names), attrs, got);
      && (r.ok <==> forall name :: name in names && name in navs ==> NavHolds(store, id, navs, name))
      && r.attrs == attrs
      && (r.ok ==> GotNavs(store, id, navs, before + (set name | name in names), r.got))
  {
    hide GotNavs, NavAttr, NavGen;
    if names == [] {
      assert before + (set name | name in names) == before;
    } else {
      var name, rest := names[0], names[1..];
      assert forall m :: m in names <==> m == name || m in rest;
      assert before + (set m | m in names) == before + {name} + (set m | m in rest);
      if name in navs && navs[name].Some? {
        var e := Entry(RefNeed(id, navs[name].value), Some(NavAttr(name)), false);
        var obs := Observe(store, id, e.need);
        assert NavGroup(id, navs, names) == [e] + NavGroup(id, navs, rest);
        if obs.ok {
          var more := got[NavAttr(name) := obs.gen.value];
          assert obs.gen.value == NavGen(store, id, navs, name) by { NavGenIs(store, id, navs, name); }
          GotOneMore(store, id, navs, before, got, name);
          NavGroupEval(store, id, navs, rest, attrs, before + {name}, more);
        }
      } else {
        assert NavGroup(id, navs, names) == NavGroup(id, navs, rest);
        GotNoMore(store, id, navs, before, got, name);
        NavGroupEval(store, id, navs, rest, attrs, before + {name}, got);
      }
    }
  }

  lemma GotNavsUnique(store: Store, id: Id, navs: Navs, names: set<string>, a: map<string, nat>, b: map<string, nat>)
    requires GotNavs(store, id, navs, names, a) && GotNavs(store, id, navs, names, b)
    ensures a == b
  {
    assert a.Keys == b.Keys;
    forall key | key in a ensures a[key] == b[key] {
      var name :| name in names && name in navs && navs[name].Some? && key == NavAttr(name);
    }
  }

  lemma {:induction false} SealedEval(store: Store, id: Id, group: seq<Entry>,
                                      attrs: map<string, nat>, got: map<string, nat>)
    requires forall e :: e in group ==> e.need.mode.MustBeReady? && !e.commit
    ensures var r, s := Eval(store, id, group, attrs, got), Eval(store, id, Sealed(group), attrs, got);
      && s.ok == r.ok && r.attrs == attrs
      && (r.ok && group != [] ==> s.attrs == attrs + r.got && s.got == map[])
      && (r.ok && group == [] ==> s == Result(true, attrs, got))
      && (!r.ok ==> s.attrs == attrs)
  {
    if |group| > 1 {
      assert Sealed(group)[1..] == Sealed(group[1..]) && Sealed(group)[0] == group[0];
      SealedEval(store, id, group[1..], attrs, Look(store, id, group[0], attrs, got).got);
    }
  }

  lemma {:induction false} NavGroupPlain(id: Id, navs: Navs, names: seq<string>)
    ensures forall e :: e in NavGroup(id, navs, names) ==> e.need.mode.MustBeReady? && !e.commit
    ensures NavGroup(id, navs, names) == [] <==> forall name :: name in names && name in navs ==> navs[name].None?
  {
    if names != [] {
      NavGroupPlain(id, navs, names[1..]);
      assert forall m :: m in names <==> m == names[0] || m in names[1..];
    }
  }

  lemma {:induction false} ContentGroupPlain(id: Id, contents: seq<Content>)
    ensures forall e :: e in ContentGroup(id, contents) ==> e.need.mode.MustBeReady? && !e.commit
  {
    if contents != [] {
      ContentGroupPlain(id, contents[1..]);
    }
  }

  /** The navigations succeed or fail alike, and leave the same attributes, in every order. */
  lemma NavOrderIrrelevant(store: Store, id: Id, navs: Navs, names: seq<string>, names': seq<string>,
                           attrs: map<string, nat>)
    requires Visits(names, navs.Keys) && Visits(names', navs.Keys)
    ensures var r, r' := Eval(store, id, Sealed(NavGroup(id, navs, names)), attrs, map[]),
                         Eval(store, id, Sealed(NavGroup(id, navs, names')), attrs, map[]);
            r.ok == r'.ok && r.attrs == r'.attrs && (r.ok ==> r.got == r'.got == map[])
  {
    assert (set name | name in names) == (set name | name in names');
    assert forall name :: name in names <==> name in names';
    NavGroupEval(store, id, navs, names, attrs, {}, map[]);
    NavGroupEval(store, id, navs, names', attrs, {}, map[]);
    NavGroupPlain(id, navs, names);
    NavGroupPlain(id, navs, names');
    SealedEval(store, id, NavGroup(id, navs, names), attrs, map[]);
    SealedEval(store, id, NavGroup(id, navs, names'), attrs, map[]);
    var r, r' := Eval(store, id, NavGroup(id, navs, names), attrs, map[]),
                 Eval(store, id, NavGroup(id, navs, names'), attrs, map[]);
    if r.ok {
      GotNavsUnique(store, id, navs, {} + (set name | name in names), r.got, r'.got);
    }
  }

  lemma MiddleIrrelevant(store: Store, id: Id, a: seq<Entry>, b: seq<Entry>, b': seq<Entry>, c: seq<Entry>,
                         attrs: map<string, nat>, got: map<string, nat>)
    requires var r := Eval(store, id, a, attrs, got);
             r.ok ==> var s, s' := Eval(store, id, b, r.attrs, r.got), Eval(store, id, b', r.attrs, r.got);
                      s.ok == s'.ok && s.attrs == s'.attrs && (s.ok ==> s.got == s'.got)
    ensures var t, t' := Eval(store, id, a + b + c, attrs, got), Eval(store, id, a + b' + c, attrs, got);
            t.ok == t'.ok && t.attrs == t'.attrs
  {
    EvalConcat(store, id, a + b, c, attrs, got);
    EvalConcat(store, id, a, b, attrs, got);
    EvalConcat(store, id, a + b', c, attrs, got);
    EvalConcat(store, id, a, b', attrs, got);
  }

  /** Groups that commit leave nothing ungathered behind. */
  lemma LeadGathersNothing(store: Store, id: Id, spec: Spec, attrs: map<string, nat>)
    requires spec.PageSpec?
    ensures var a := Sealed(ContentGroup(id, spec.contents)) + OptionEntries(id, spec.header, "header.generation")
                     + OptionEntries(id, spec.footer, "footer.generation");
            var r := Eval(store, id, a, attrs, map[]); r.ok ==> r.got == map[]
  {
    var a, b := Sealed(ContentGroup(id, spec.contents)), OptionEntries(id, spec.header, "header.generation");
    var c := OptionEntries(id, spec.footer, "footer.generation");
    ContentGroupPlain(id, spec.contents);
    SealedEval(store, id, ContentGroup(id, spec.contents), attrs, map[]);
    EvalConcat(store, id, a + b, c, attrs, map[]);
    EvalConcat(store, id, a, b, attrs, map[]);
  }

  lemma PageOrderIrrelevant(store: Store, id: Id, spec: Spec, inherited: Navs, names: seq<string>, names': seq<string>,
                            attrs: map<string, nat>)
    requires spec.PageSpec?
    requires Visits(names, (inherited + spec.navs).Keys) && Visits(names', (inherited + spec.navs).Keys)
    ensures var t, t' := Eval(store, id, PagePlan(id, spec, inherited, names), attrs, map[]),
                         Eval(store, id, PagePlan(id, spec, inherited, names'), attrs, map[]);
            t.ok == t'.ok && t.attrs == t'.attrs
  {
    var navs := inherited + spec.navs;
    var a := Sealed(ContentGroup(id, spec.contents)) + OptionEntries(id, spec.header, "header.generation")
             + OptionEntries(id, spec.footer, "footer.generation");
    var c := OptionEntries(id, spec.scriptLibrary, "scriptLibrary.generation");
    LeadGathersNothing(store, id, spec, attrs);
    NavOrderIrrelevant(store, id, navs, names, names', Eval(store, id, a, attrs, map[]).attrs);
    MiddleIrrelevant(store, id, a, Sealed(NavGroup(id, navs, names)), Sealed(NavGroup(id, navs, names')), c,
                     attrs, map[]);
  }

  lemma OptionsGatherNothing(store: Store, id: Id, a: Option<Ref>, attrA: string, b: Option<Ref>, attrB: string,
                             attrs: map<string, nat>)
    ensures var r := Eval(store, id, OptionEntries(id, a, attrA) + OptionEntries(id, b, attrB), attrs, map[]);
            r.ok ==> r.got == map[]
  {
    EvalConcat(store, id, OptionEntries(id, a, attrA), OptionEntries(id, b, attrB), attrs, map[]);
  }

  lemma ArchetypeOrderIrrelevant(store: Store, id: Id, spec: Spec, names: seq<string>, names': seq<string>,
                                 attrs: map<string, nat>)
    requires spec.ArchetypeSpec?
    requires Visits(names, spec.navs.Keys) && Visits(names', spec.navs.Keys)
    ensures var t, t' := Eval(store, id, Plan(id, spec, names), attrs, map[]),
                         Eval(store, id, Plan(id, spec, names'), attrs, map[]);
            t.ok == t'.ok && t.attrs == t'.attrs
  {
    hide Eval, NavGroup, Sealed, Visits, OptionEntries;
    var f := OptionEntries(id, spec.footer, "footer.generation");
    var h := OptionEntries(id, spec.header, "header.generation");
    var c := OptionEntries(id, spec.scriptLibrary, "scriptLibrary.generation");
    OptionsGatherNothing(store, id, spec.footer, "footer.generation", spec.header, "header.generation", attrs);
    NavOrderIrrelevant(store, id, spec.navs, names, names', Eval(store, id, f + h, attrs, map[]).attrs);
    MiddleIrrelevant(store, id, f + h, Sealed(NavGroup(id, spec.navs, names)), Sealed(NavGroup(id, spec.navs, names')), c,
                     attrs, map[]);
  }

  // ---------- the status a pass is heading for ----------

  ghost function SomeOrder(keys: set<string>): (names: seq<string>)
    ensures Visits(names, keys)
  {
    if keys == {} then []
    else
      var k :| k in keys;
      var rest := SomeOrder(keys - {k});
      assert forall x :: x in [k] + rest <==> x == k || x in rest;
      [k] + rest
  }

  function AsStatus(r: Result, gen: nat): Status {
    Status(r.ok, r.attrs, gen, true)
  }

  /** The status that `p` records if the store stays as it is. */
  ghost function Expected(store: Store, id: Id, p: Pass): Status {
    if Finished(p) then Outcome(p)
    else if p.complete then AsStatus(Eval(store, id, p.todo, p.attrs, p.got), p.start.gen)
    else
      var q := Consume(p, Observe(store, id, p.todo[0].need), 0);
      if q.failed || !p.start.spec.PageSpec? then Outcome(q)
      else
        var names := SomeOrder(MergedNavs(store, p).Keys);
        AsStatus(Eval(store, id, PagePlan(id, p.start.spec, Inherited(store, p), names), q.attrs, q.got), p.start.gen)
  }

  /** The status that a pass begun now records if the store stays as it is. */
  ghost function Due(store: Store, id: Id): Status
    requires id in store
  {
    Expected(store, id, StartPass(id, store[id], SomeOrder(NavsOf(store[id].spec).Keys), 0))
  }

  lemma LookupExpected(store: Store, id: Id, p: Pass, clock: nat)
    requires p.complete && !Finished(p)
    ensures Expected(store, id, Consume(p, Observe(store, id, p.todo[0].need), clock)) == Expected(store, id, p)
  {
    var q := Consume(p, Observe(store, id, p.todo[0].need), clock);
    var r := Look(store, id, p.todo[0], p.attrs, p.got);
    assert q.attrs == r.attrs && q.got == r.got && q.failed == !r.ok;
    assert Eval(store, id, p.todo, p.attrs, p.got) == if r.ok then Eval(store, id, q.todo, q.attrs, q.got) else r;
  }

  lemma OpeningExpected(store: Store, id: Id, p: Pass, names: seq<string>, clock: nat)
    requires !p.complete && !Finished(p) && p.start.spec.PageSpec?
    requires p.got == map[] && p.todo[0].commit
    requires Visits(names, MergedNavs(store, p).Keys)
    ensures Expected(store, id, ReadNext(store, id, p, names, clock)) == Expected(store, id, p)
  {
    var q := Consume(p, Observe(store, id, p.todo[0].need), clock);
    var q0 := Consume(p, Observe(store, id, p.todo[0].need), 0);
    assert q.attrs == q0.attrs && q.got == q0.got && q.failed == q0.failed && q.start == q0.start;
    if !q.failed {
      assert q.got == map[];
      var inherited, spec := Inherited(store, p), p.start.spec;
      assert MergedNavs(store, p) == inherited + spec.navs;
      PageOrderIrrelevant(store, id, spec, inherited, names, SomeOrder(MergedNavs(store, p).Keys), q.attrs);
      var t := ReadNext(store, id, p, names, clock);
      if t.todo == [] { assert Eval(store, id, t.todo, t.attrs, t.got) == Result(true, t.attrs, t.got); }
    }
  }

  /** A lookup on the current store does not change what the pass is heading for. */
  lemma ReadKeepsExpected(s: State, id: Id, names: seq<string>)
    requires Shape(s) && Enabled(s, Read(id, names))
    ensures Expected(s.store, id, ReadNext(s.store, id, s.passes[id], names, s.clock))
         == Expected(s.store, id, s.passes[id])
  {
    var p := s.passes[id];
    assert PassShape(id, p, s.clock);
    if p.complete {
      LookupExpected(s.store, id, p, s.clock);
    } else {
      OpeningExpected(s.store, id, p, names, s.clock);
    }
  }

  lemma EmptyEval(store: Store, id: Id, p: Pass)
    requires p.complete && !p.failed
    ensures Expected(store, id, p) == AsStatus(Eval(store, id, p.todo, p.attrs, p.got), p.start.gen)
  {
    hide Observe;
  }

  /** Every new pass is heading for the status that is due, in whatever order it visits. */
  lemma StartExpectsDue(store: Store, id: Id, names: seq<string>, clock: nat)
    requires id in store && Visits(names, NavsOf(store[id].spec).Keys)
    ensures Expected(store, id, StartPass(id, store[id], names, clock)) == Due(store, id)
  {
    hide Eval, PagePlan, Observe, NavGroup, OptionEntries, PageEntries, TranslationEntries, Sealed;
    var spec, order := store[id].spec, SomeOrder(NavsOf(store[id].spec).Keys);
    var p, p' := StartPass(id, store[id], names, clock), StartPass(id, store[id], order, 0);
    if spec.ArchetypeSpec? {
      ArchetypeOrderIrrelevant(store, id, spec, names, order, store[id].status.attrs);
      EmptyEval(store, id, p);
      EmptyEval(store, id, p');
    } else {
      assert Plan(id, spec, names) == Plan(id, spec, order);
    }
  }

  // ---------- the Ready value that is due ----------

  lemma {:induction false} EvalOk(store: Store, id: Id, todo: seq<Entry>, attrs: map<string, nat>, got: map<string, nat>)
    ensures Eval(store, id, todo, attrs, got).ok <==> forall n :: n in NeedsOf(todo) ==> Holds(store, id, n)
  {
    if todo != [] {
      var r := Look(store, id, todo[0], attrs, got);
      TailNeeds(todo);
      EvalOk(store, id, todo[1..], r.attrs, r.got);
    }
  }

  lemma PageDue(store: Store, id: Id)
    requires id in store && store[id].spec.PageSpec?
    requires Holds(store, id, RefNeed(id, store[id].spec.archetype))
    ensures Due(store, id).ready <==> Recomputed(store, id)
  {
    var spec := store[id].spec;
    var p := StartPass(id, store[id], SomeOrder(NavsOf(spec).Keys), 0);
    var q := Consume(p, Observe(store, id, p.todo[0].need), 0);
    var inherited, names := Inherited(store, p), SomeOrder(MergedNavs(store, p).Keys);
    PagePlanReads(id, spec, inherited, names);
    EvalOk(store, id, PagePlan(id, spec, inherited, names), q.attrs, q.got);
    var needs, left := DirectNeeds(id, spec), NavNeeds(id, InheritedNavs(inherited, spec.navs));
    assert InheritedNeeds(store, id) == left;
    assert forall n :: n in needs + left ==>
      n == RefNeed(id, spec.archetype) || n in NeedsOf(PagePlan(id, spec, inherited, names));
  }

  /** An undisturbed pass records Ready exactly when all it has to look up holds. */
  lemma DueReadyIsRecomputed(store: Store, id: Id)
    requires id in store
    ensures Due(store, id).ready <==> Recomputed(store, id)
  {
    var spec := store[id].spec;
    var names := SomeOrder(NavsOf(spec).Keys);
    PlanReadsDirectNeeds(id, spec, names);
    if spec.PageSpec? {
      var n := RefNeed(id, spec.archetype);
      if Holds(store, id, n) {
        PageDue(store, id);
      } else {
        assert n in DirectNeeds(id, spec);
      }
    } else {
      EvalOk(store, id, Plan(id, spec, names), store[id].status.attrs, map[]);
      assert InheritedNeeds(store, id) == {};
    }
  }

  // ---------- the plan of an undisturbed pass ----------

  /** All the lookups of an undisturbed pass. */
  ghost function FullPlan(store: Store, id: Id): seq<Entry>
    requires id in store
  {
    var spec := store[id].spec;
    var plan := Plan(id, spec, SomeOrder(NavsOf(spec).Keys));
    if spec.PageSpec? && Holds(store, id, plan[0].need) then
      var inherited := NavsOf(store[plan[0].need.target.value].spec);
      plan + PagePlan(id, spec, inherited, SomeOrder((inherited + spec.navs).Keys))
    else plan
  }

  /** A single lookup that opens into `rest`. */
  lemma EvalOpened(store: Store, id: Id, e: Entry, rest: seq<Entry>, attrs: map<string, nat>)
    ensures var r := Look(store, id, e, attrs, map[]);
            Eval(store, id, [e] + rest, attrs, map[]) == if r.ok then Eval(store, id, rest, r.attrs, r.got) else r
  {
    assert ([e] + rest)[1..] == rest;
  }

  lemma PageDueIsEval(store: Store, id: Id)
    requires id in store && store[id].spec.PageSpec?
    ensures Due(store, id)
         == AsStatus(Eval(store, id, FullPlan(store, id), store[id].status.attrs, map[]), store[id].gen)
  {
    hide Eval, PagePlan;
    var spec, attrs := store[id].spec, store[id].status.attrs;
    var p := StartPass(id, store[id], SomeOrder(NavsOf(spec).Keys), 0);
    var e := p.todo[0];
    assert p.todo == [e];
    var q := Consume(p, Observe(store, id, e.need), 0);
    var r := Look(store, id, e, attrs, map[]);
    assert q.attrs == r.attrs && q.got == r.got && q.failed == !r.ok;
    if r.ok {
      assert MergedNavs(store, p) == Inherited(store, p) + spec.navs;
      var rest := PagePlan(id, spec, Inherited(store, p), SomeOrder(MergedNavs(store, p).Keys));
      assert FullPlan(store, id) == [e] + rest;
      EvalOpened(store, id, e, rest, attrs);
    } else {
      assert [e] + [] == [e];
      EvalOpened(store, id, e, [], attrs);
    }
  }

  lemma DueIsEval(store: Store, id: Id)
    requires id in store
    ensures Due(store, id)
         == AsStatus(Eval(store, id, FullPlan(store, id), store[id].status.attrs, map[]), store[id].gen)
  {
    hide Eval, Observe, PagePlan, NavGroup, OptionEntries, PageEntries, TranslationEntries, Sealed;
    if store[id].spec.PageSpec? {
      PageDueIsEval(store, id);
    } else {
      EmptyEval(store, id, StartPass(id, store[id], SomeOrder(NavsOf(store[id].spec).Keys), 0));
    }
  }
}
