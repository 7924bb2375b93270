/** What the rest of a pass will make of the attributes gathered so far, one group of lookups at a
    time. */
module Lookahead {
  import opened Options
  import opened Objects
  import opened Needs
  import opened Readiness
  import opened Evaluation
  import opened Resolvers

  type Attributes = map<string, nat>

  /** Whether the lookups in `rest` all succeed, and the attributes they leave. */
  function Ahead(store: Store, id: Id, rest: seq<Entry>, attributes: Attributes): (bool, Attributes) {
    var r := Eval(store, id, rest, attributes, map[]);
    (r.ok, r.attrs)
  }

  lemma NothingAhead(store: Store, id: Id, attributes: Attributes)
    ensures Ahead(store, id, [], attributes) == (true, attributes)
  {
  }

  lemma EntryAhead(store: Store, id: Id, e: Entry, rest: seq<Entry>, attributes: Attributes)
    requires e.commit && e.attr.Some?
    ensures var obs := Observe(store, id, e.need);
      var after := if obs.gen.Some? then attributes[e.attr.value := obs.gen.value] else attributes;
      Ahead(store, id, [e] + rest, attributes) ==
        if obs.ok then Ahead(store, id, rest, after)
        else (false, if e.need.mode.SecretAccepted? then after else attributes)
  {
    assert ([e] + rest)[1..] == rest;
    assert attributes + map[] == attributes;
    var obs := Observe(store, id, e.need);
    if obs.gen.Some? {
      assert attributes + map[e.attr.value := obs.gen.value] == attributes[e.attr.value := obs.gen.value];
    }
  }

  lemma OptionAhead(store: Store, id: Id, ref: Option<Ref>, attr: string, rest: seq<Entry>, attributes: Attributes)
    ensures var r := Resolve(store, id, ref);
      Ahead(store, id, OptionEntries(id, ref, attr) + rest, attributes) ==
        if r.Stops() then (false, attributes)
        else if r.Nothing? then Ahead(store, id, rest, attributes)
        else Ahead(store, id, rest, attributes[attr := store[r.id].gen])
  {
    hide Eval, Ahead;
    if ref.None? {
      assert OptionEntries(id, ref, attr) + rest == rest;
    } else {
      EntryAhead(store, id, OptionEntries(id, ref, attr)[0], rest, attributes);
      assert OptionEntries(id, ref, attr) == [OptionEntries(id, ref, attr)[0]];
    }
  }

  /** A group commits as a whole. */
  lemma GroupAhead(store: Store, id: Id, group: seq<Entry>, rest: seq<Entry>, attributes: Attributes)
    requires forall e :: e in group ==> e.need.mode.MustBeReady? && !e.commit
    ensures var r := Eval(store, id, group, attributes, map[]);
      Ahead(store, id, Sealed(group) + rest, attributes) ==
        if r.ok then Ahead(store, id, rest, attributes + r.got) else (false, attributes)
  {
    SealedEval(store, id, group, attributes, map[]);
    EvalConcat(store, id, Sealed(group), rest, attributes, map[]);
    if group == [] {
      assert attributes + map[] == attributes;
    }
  }

  lemma NavsAhead(store: Store, id: Id, navs: Navs, names: seq<string>, rest: seq<Entry>, attributes: Attributes,
                  got: Attributes)
    requires Visits(names, navs.Keys)
    requires (forall n :: n in NavNeeds(id, navs) ==> Holds(store, id, n)) ==> GotNavs(store, id, navs, navs.Keys, got)
    ensures Ahead(store, id, Sealed(NavGroup(id, navs, names)) + rest, attributes) ==
      if forall n :: n in NavNeeds(id, navs) ==> Holds(store, id, n)
      then Ahead(store, id, rest, attributes + got) else (false, attributes)
  {
    hide Ahead, Holds, GotNavs;
    NavGroupPlain(id, navs, names);
    GroupAhead(store, id, NavGroup(id, navs, names), rest, attributes);
    NavsEval(store, id, navs, names, attributes, got);
  }

  lemma NavsEval(store: Store, id: Id, navs: Navs, names: seq<string>, attributes: Attributes, got: Attributes)
    requires Visits(names, navs.Keys)
    requires (forall n :: n in NavNeeds(id, navs) ==> Holds(store, id, n)) ==> GotNavs(store, id, navs, navs.Keys, got)
    ensures var r := Eval(store, id, NavGroup(id, navs, names), attributes, map[]);
      && (r.ok <==> forall n :: n in NavNeeds(id, navs) ==> Holds(store, id, n))
      && (r.ok ==> r.got == got)
  {
    hide Eval, NavGroup, Observe;
    var group := NavGroup(id, navs, names);
    EvalOk(store, id, group, attributes, map[]);
    NavsVisited(id, navs, names);
    SealedNeeds(group);
    NoNavs(store, id, navs);
    NavGroupEval(store, id, navs, names, attributes, {}, map[]);
    assert {} + (set name | name in names) == navs.Keys;
    var r := Eval(store, id, group, attributes, map[]);
    if r.ok {
      GotNavsUnique(store, id, navs, navs.Keys, r.got, got);
    }
  }

  lemma NoNavs(store: Store, id: Id, navs: Navs)
    ensures GotNavs(store, id, navs, {}, map[])
  {
  }

  // ---------- the apps that fill the slots of a page ----------

  function SlotAttr(slot: string): string {
    slot + ".content.generation"
  }

  lemma SlotAttrInjective(a: string, b: string)
    ensures SlotAttr(a) == SlotAttr(b) ==> a == b
  {
    var suffix := ".content.generation";
    if SlotAttr(a) == SlotAttr(b) {
      assert |a| == |b|;
      assert a == (a + suffix)[..|a|] && b == (b + suffix)[..|b|];
    }
  }

  /** An app fills the slot of the entry at `i`, for good. */
  predicate AppLast(contents: seq<Content>, i: nat)
    requires i < |contents|
  {
    contents[i].AppContent? && IsLast(contents, i)
  }

  /** `got` holds the generation of the app at `i`. */
  predicate GotApp(store: Store, id: Id, contents: seq<Content>, i: nat, got: Attributes)
    requires i < |contents| && contents[i].AppContent?
  {
    var attr, target := SlotAttr(contents[i].slot), Target(id, contents[i].app);
    target.Some? && target.value in store && attr in got && got[attr] == store[target.value].gen
  }

  /** `got` holds exactly the generations of the apps that fill a slot. */
  ghost predicate GotContents(store: Store, id: Id, contents: seq<Content>, got: Attributes) {
    && (forall i :: 0 <= i < |contents| && AppLast(contents, i) ==> GotApp(store, id, contents, i, got))
    && (forall key :: key in got ==>
          exists i :: 0 <= i < |contents| && AppLast(contents, i) && key == SlotAttr(contents[i].slot))
  }

  lemma GotContentsUnique(store: Store, id: Id, contents: seq<Content>, a: Attributes, b: Attributes)
    requires GotContents(store, id, contents, a) && GotContents(store, id, contents, b)
    ensures a == b
  {
    forall key | key in a ensures key in b && a[key] == b[key] {
      var i :| 0 <= i < |contents| && AppLast(contents, i) && key == SlotAttr(contents[i].slot);
      assert GotApp(store, id, contents, i, a) && GotApp(store, id, contents, i, b);
    }
    forall key | key in b ensures key in a {
      var i :| 0 <= i < |contents| && AppLast(contents, i) && key == SlotAttr(contents[i].slot);
      assert GotApp(store, id, contents, i, a);
    }
  }

  lemma TailLast(contents: seq<Content>, i: nat)
    requires i + 1 < |contents|
    ensures IsLast(contents, i + 1) <==> IsLast(contents[1..], i)
  {
    var rest := contents[1..];
    if IsLast(contents, i + 1) {
      assert forall j :: i < j < |rest| ==> rest[j] == contents[j + 1];
    }
    if IsLast(rest, i) {
      forall j | i + 1 < j < |contents| ensures contents[j].slot != contents[i + 1].slot {
        assert contents[j] == rest[j - 1];
      }
    }
  }

  lemma HeadLast(contents: seq<Content>)
    requires contents != []
    ensures IsLast(contents, 0) <==> !exists d :: d in contents[1..] && d.slot == contents[0].slot
  {
    var rest := contents[1..];
    if IsLast(contents, 0) {
      forall j | 0 <= j < |rest| ensures rest[j].slot != contents[0].slot {
        assert rest[j] == contents[j + 1];
      }
    } else {
      var j :| 0 < j < |contents| && contents[j].slot == contents[0].slot;
      assert rest[j - 1] == contents[j] && rest[j - 1] in rest;
    }
  }

  /** What the entry in front adds to what the others gathered. */
  lemma GotContentsHead(store: Store, id: Id, contents: seq<Content>, g: Attributes)
    requires contents != [] && GotContents(store, id, contents[1..], g)
    requires AppLast(contents, 0) ==> Holds(store, id, RefNeed(id, contents[0].app))
    ensures GotContents(store, id, contents,
              if AppLast(contents, 0) then g[SlotAttr(contents[0].slot) := store[Target(id, contents[0].app).value].gen]
              else g)
  {
    hide IsLast, SlotAttr;
    var rest, c := contents[1..], contents[0];
    var h := if AppLast(contents, 0) then g[SlotAttr(c.slot) := store[Target(id, c.app).value].gen] else g;
    forall i | 0 <= i < |contents| && AppLast(contents, i) ensures GotApp(store, id, contents, i, h) {
      if i > 0 {
        TailLast(contents, i - 1);
        assert rest[i - 1] == contents[i];
        assert GotApp(store, id, rest, i - 1, g);
        if AppLast(contents, 0) {
          HeadLast(contents);
          assert rest[i - 1] in rest;
          SlotAttrInjective(c.slot, contents[i].slot);
        }
      }
    }
    forall key | key in h
      ensures exists i :: 0 <= i < |contents| && AppLast(contents, i) && key == SlotAttr(contents[i].slot)
    {
      if key in g {
        var i :| 0 <= i < |rest| && AppLast(rest, i) && key == SlotAttr(rest[i].slot);
        TailLast(contents, i);
        assert contents[i + 1] == rest[i] && AppLast(contents, i + 1);
      } else {
        assert AppLast(contents, 0);
      }
    }
  }

  lemma {:induction false} ContentEval(store: Store, id: Id, contents: seq<Content>, attributes: Attributes,
                                       got: Attributes) returns (g: Attributes)
    ensures var r := Eval(store, id, ContentGroup(id, contents), attributes, got);
      r.ok ==> GotContents(store, id, contents, g) && r.got == got + g
    decreases |contents|, 1
  {
    g := map[];
    if contents == [] {
      assert got + map[] == got;
    } else {
      var c, rest := contents[0], contents[1..];
      HeadLast(contents);
      if c.RawContent? {
        assert ContentGroup(id, contents) == ContentGroup(id, rest);
        g := ContentEval(store, id, rest, attributes, got);
        if GotContents(store, id, rest, g) { GotContentsHead(store, id, contents, g); }
      } else if Holds(store, id, RefNeed(id, c.app)) {
        g := ContentHead(store, id, contents, attributes, got);
      } else {
        ContentStops(store, id, contents, attributes, got);
      }
    }
  }

  lemma ContentStops(store: Store, id: Id, contents: seq<Content>, attributes: Attributes, got: Attributes)
    requires contents != [] && contents[0].AppContent? && !Holds(store, id, RefNeed(id, contents[0].app))
    ensures !Eval(store, id, ContentGroup(id, contents), attributes, got).ok
  {
    assert RefNeed(id, contents[0].app) in ContentNeeds(id, contents);
    EvalOk(store, id, ContentGroup(id, contents), attributes, got);
    ContentGroupNeeds(id, contents);
  }

  lemma {:induction false} ContentHead(store: Store, id: Id, contents: seq<Content>, attributes: Attributes,
                                       got: Attributes) returns (g: Attributes)
    requires contents != [] && contents[0].AppContent? && Holds(store, id, RefNeed(id, contents[0].app))
    ensures var r := Eval(store, id, ContentGroup(id, contents), attributes, got);
      r.ok ==> GotContents(store, id, contents, g) && r.got == got + g
    decreases |contents|, 0
  {
    hide GotContents, IsLast, Eval, ContentGroup, SlotAttr;
    var c, rest := contents[0], contents[1..];
    HeadLast(contents);
    var gen := store[Target(id, c.app).value].gen;
    var more := if AppLast(contents, 0) then got[SlotAttr(c.slot) := gen] else got;
    ContentHeadEval(store, id, contents, attributes, got, more);
    g := ContentEval(store, id, rest, attributes, more);
    if Eval(store, id, ContentGroup(id, rest), attributes, more).ok {
      GotContentsHead(store, id, contents, g);
      if AppLast(contents, 0) {
        HeadNotAgain(store, id, contents, g);
        assert more + g == got + g[SlotAttr(c.slot) := gen];
        g := g[SlotAttr(c.slot) := gen];
      }
    }
  }

  lemma ContentHeadEval(store: Store, id: Id, contents: seq<Content>, attributes: Attributes, got: Attributes,
                        more: Attributes)
    requires contents != [] && contents[0].AppContent? && Holds(store, id, RefNeed(id, contents[0].app))
    requires more == if AppLast(contents, 0)
                     then got[SlotAttr(contents[0].slot) := store[Target(id, contents[0].app).value].gen] else got
    ensures Eval(store, id, ContentGroup(id, contents), attributes, got)
         == Eval(store, id, ContentGroup(id, contents[1..]), attributes, more)
  {
    hide IsLast;
    var group := ContentGroup(id, contents);
    HeadLast(contents);
    assert group[1..] == ContentGroup(id, contents[1..]);
  }

  lemma HeadNotAgain(store: Store, id: Id, contents: seq<Content>, g: Attributes)
    requires contents != [] && AppLast(contents, 0) && GotContents(store, id, contents[1..], g)
    ensures SlotAttr(contents[0].slot) !in g
  {
    hide IsLast, SlotAttr;
    var rest := contents[1..];
    HeadLast(contents);
    if SlotAttr(contents[0].slot) in g {
      var i :| 0 <= i < |rest| && AppLast(rest, i) && SlotAttr(contents[0].slot) == SlotAttr(rest[i].slot);
      SlotAttrInjective(contents[0].slot, rest[i].slot);
      assert false;
    }
  }

  lemma ContentsAhead(store: Store, id: Id, contents: seq<Content>, rest: seq<Entry>, attributes: Attributes,
                      got: Attributes)
    requires (forall n :: n in ContentNeeds(id, contents) ==> Holds(store, id, n)) ==>
               GotContents(store, id, contents, got)
    ensures Ahead(store, id, Sealed(ContentGroup(id, contents)) + rest, attributes) ==
      if forall n :: n in ContentNeeds(id, contents) ==> Holds(store, id, n)
      then Ahead(store, id, rest, attributes + got) else (false, attributes)
  {
    hide Ahead, Eval, Observe, ContentGroup, GotContents;
    var group := ContentGroup(id, contents);
    ContentGroupPlain(id, contents);
    GroupAhead(store, id, group, rest, attributes);
    EvalOk(store, id, group, attributes, map[]);
    ContentGroupNeeds(id, contents);
    var g := ContentEval(store, id, contents, attributes, map[]);
    var r := Eval(store, id, group, attributes, map[]);
    if r.ok {
      GotContentsUnique(store, id, contents, g, got);
      assert map[] + g == g;
    }
  }
}
