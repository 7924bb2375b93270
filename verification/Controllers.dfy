/** One pass of each controller, as its code makes it, on one store: every pass records exactly the
    status that is due. */
module Controllers {
  import opened Options
  import opened Objects
  import opened Needs
  import opened Readiness
  import opened Evaluation
  import opened Resolvers
  import opened Lookahead

  /** `attributes` and `ready` are what a pass over `id` must have recorded when it returns. */
  ghost predicate Completes(store: Store, id: Id, ready: bool, attributes: Attributes)
    requires id in store
  {
    (ready, attributes) == Ahead(store, id, FullPlan(store, id), store[id].status.attrs)
  }

  lemma CompletesDue(store: Store, id: Id, ready: bool, attributes: Attributes)
    requires id in store && Completes(store, id, ready, attributes)
    ensures Status(ready, attributes, store[id].gen, true) == Due(store, id)
  {
    hide Eval, FullPlan, Due;
    DueIsEval(store, id);
  }

  // ---------- what a pass records ----------

  /** The attribute holds the generation of the object that the reference names. */
  predicate Recorded(store: Store, id: Id, ref: Option<Ref>, attributes: Attributes, attr: string) {
    ref.Some? && Present(store, id, ref.value) ==>
      attr in attributes && attributes[attr] == store[Named(id, ref.value)].gen
  }

  /** Nothing but the `touched` attributes has changed. */
  ghost predicate KeepsBut(before: Attributes, after: Attributes, touched: set<string>) {
    forall key :: key !in touched ==>
      (key in before <==> key in after) && (key in before ==> after[key] == before[key])
  }

  lemma RecordedStill(store: Store, id: Id, ref: Option<Ref>, attr: string, before: Attributes, after: Attributes,
                      touched: set<string>)
    requires Recorded(store, id, ref, before, attr) && KeepsBut(before, after, touched) && attr !in touched
    ensures Recorded(store, id, ref, after, attr)
  {
  }

  predicate NavsRecorded(store: Store, id: Id, navs: Navs, attributes: Attributes) {
    forall name :: name in navs ==> Recorded(store, id, navs[name], attributes, name + ".navigation.generation")
  }

  function NavAttrs(navs: Navs): set<string> {
    set name | name in navs :: name + ".navigation.generation"
  }

  /** Each slot whose last entry is an app holds the app's generation. */
  predicate AppsRecorded(store: Store, id: Id, contents: seq<Content>, attributes: Attributes) {
    forall i :: 0 <= i < |contents| && contents[i].AppContent? && IsLast(contents, i) ==>
      Recorded(store, id, Some(contents[i].app), attributes, contents[i].slot + ".content.generation")
  }

  function SlotAttrs(contents: seq<Content>): set<string> {
    set c | c in contents :: c.slot + ".content.generation"
  }

  /** The letter before ".generation" tells the kinds of attributes apart. */
  predicate EndsIn(attr: string, letter: char) {
    |attr| >= 12 && attr[|attr| - 12] == letter
  }

  lemma NavAttrsEnd(navs: Navs)
    ensures forall attr :: attr in NavAttrs(navs) ==> EndsIn(attr, 'n')
  {
    forall attr | attr in NavAttrs(navs) ensures EndsIn(attr, 'n') {
      var name :| name in navs && attr == name + ".navigation.generation";
      assert ".navigation.generation"[10] == 'n';
    }
  }

  lemma SlotAttrsEnd(contents: seq<Content>)
    ensures forall attr :: attr in SlotAttrs(contents) ==> EndsIn(attr, 't')
  {
    forall attr | attr in SlotAttrs(contents) ensures EndsIn(attr, 't') {
      var c :| c in contents && attr == c.slot + ".content.generation";
      assert ".content.generation"[7] == 't';
    }
  }

  lemma TranslationAttrEnds(name: string)
    ensures EndsIn(name + ".translation.generation", 'n')
  {
    assert ".translation.generation"[11] == 'n';
  }

  lemma AttrsEnd()
    ensures EndsIn("footer.generation", 'r') && EndsIn("header.generation", 'r')
    ensures EndsIn("scriptLibrary.generation", 'y') && EndsIn("archetype.generation", 'e')
    ensures EndsIn("theme.generation", 'e')
    ensures EndsIn("announcement.utilitypage.generation", 'e')
    ensures EndsIn("error.utilitypage.generation", 'e') && EndsIn("login.utilitypage.generation", 'e')
  {
  }

  lemma AttrsDiffer()
    ensures "footer.generation"[0] != "header.generation"[0]
    ensures "theme.generation"[0] == 't' && "archetype.generation"[0] == 'a'
    ensures "announcement.utilitypage.generation"[0] == 'a' && "error.utilitypage.generation"[0] == 'e'
    ensures "login.utilitypage.generation"[0] == 'l'
  {
  }

  /** The last of the translations of one name has its generation recorded, unless the default
      translation has that name and is recorded after it. */
  predicate TranslationsRecorded(store: Store, id: Id, refs: seq<Ref>, attributes: Attributes) {
    forall i :: 0 <= i < |refs| && refs[i].name != "kdex-default-translation" && LastNamed(refs, i) ==>
      Recorded(store, id, Some(refs[i]), attributes, refs[i].name + ".translation.generation")
  }

  predicate LastNamed(refs: seq<Ref>, i: nat)
    requires i < |refs|
  {
    forall j :: i < j < |refs| ==> refs[j].name != refs[i].name
  }

  predicate DefaultRecorded(store: Store, attributes: Attributes) {
    var id := Id(Kind(Translation, true), "", "kdex-default-translation");
    var attr := "kdex-default-translation" + ".translation.generation";
    id in store ==> attr in attributes && attributes[attr] == store[id].gen
  }

  /** What a pass that finds all references resolved leaves in the attributes. */
  predicate Records(store: Store, id: Id, attributes: Attributes)
    requires id in store
  {
    match store[id].spec
    case SecretSpec(_) => true
    case TranslationSpec => true
    case PackagedSpec(package) =>
      package.Some? && package.value.secret.Some? ==>
        var secret := Id(Kind(Secret, false), id.ns, package.value.secret.value);
        secret in store && "secret.generation" in attributes && attributes["secret.generation"] == store[secret].gen
    case StyledSpec(lib) => Recorded(store, id, lib, attributes, "scriptLibrary.generation")
    case ArchetypeSpec(footer, header, navs, lib) =>
      && Recorded(store, id, footer, attributes, "footer.generation")
      && Recorded(store, id, header, attributes, "header.generation")
      && NavsRecorded(store, id, navs, attributes)
      && Recorded(store, id, lib, attributes, "scriptLibrary.generation")
    case PageSpec(_, archetype, contents, header, footer, navs, lib) =>
      && Recorded(store, id, Some(archetype), attributes, "archetype.generation")
      && AppsRecorded(store, id, contents, attributes)
      && Recorded(store, id, header, attributes, "header.generation")
      && Recorded(store, id, footer, attributes, "footer.generation")
      && (Present(store, id, archetype) ==>
            NavsRecorded(store, id, NavsOf(store[Named(id, archetype)].spec) + navs, attributes))
      && Recorded(store, id, lib, attributes, "scriptLibrary.generation")
    case HostSpec(announcement, error, login, theme, lib, translations) =>
      && Recorded(store, id, announcement, attributes, "announcement.utilitypage.generation")
      && Recorded(store, id, error, attributes, "error.utilitypage.generation")
      && Recorded(store, id, login, attributes, "login.utilitypage.generation")
      && Recorded(store, id, theme, attributes, "theme.generation")
      && Recorded(store, id, lib, attributes, "scriptLibrary.generation")
      && TranslationsRecorded(store, id, translations, attributes)
      && DefaultRecorded(store, attributes)
  }

  lemma KeptOn(a: Attributes, b: Attributes, c: Attributes, s: set<string>, t: set<string>)
    requires KeepsBut(a, b, s) && KeepsBut(b, c, t)
    ensures KeepsBut(a, c, s + t)
  {
  }

  lemma NavsRecordedStill(store: Store, id: Id, navs: Navs, before: Attributes, after: Attributes, touched: set<string>)
    requires NavsRecorded(store, id, navs, before) && KeepsBut(before, after, touched)
    requires forall attr :: attr in touched ==> !EndsIn(attr, 'n')
    ensures NavsRecorded(store, id, navs, after)
  {
    hide Recorded, KeepsBut, EndsIn;
    NavAttrsEnd(navs);
    forall name | name in navs ensures Recorded(store, id, navs[name], after, name + ".navigation.generation") {
      assert name + ".navigation.generation" in NavAttrs(navs);
      RecordedStill(store, id, navs[name], name + ".navigation.generation", before, after, touched);
    }
  }

  lemma AppsRecordedStill(store: Store, id: Id, contents: seq<Content>, before: Attributes, after: Attributes,
                          touched: set<string>)
    requires AppsRecorded(store, id, contents, before) && KeepsBut(before, after, touched)
    requires forall attr :: attr in touched ==> !EndsIn(attr, 't')
    ensures AppsRecorded(store, id, contents, after)
  {
    hide Recorded, KeepsBut, EndsIn, IsLast;
    SlotAttrsEnd(contents);
    forall i | 0 <= i < |contents| && contents[i].AppContent? && IsLast(contents, i)
      ensures Recorded(store, id, Some(contents[i].app), after, contents[i].slot + ".content.generation")
    {
      assert contents[i] in contents;
      assert contents[i].slot + ".content.generation" in SlotAttrs(contents);
      RecordedStill(store, id, Some(contents[i].app), contents[i].slot + ".content.generation", before, after, touched);
    }
  }

  /** What the steps of an archetype's pass record is still there at its end. */
  lemma ArchetypeRecords(store: Store, id: Id, a1: Attributes, a2: Attributes, a3: Attributes, a4: Attributes)
    requires id in store && store[id].spec.ArchetypeSpec?
    requires Recorded(store, id, store[id].spec.footer, a1, "footer.generation")
    requires Recorded(store, id, store[id].spec.header, a2, "header.generation")
    requires NavsRecorded(store, id, store[id].spec.navs, a3)
    requires Recorded(store, id, store[id].spec.scriptLibrary, a4, "scriptLibrary.generation")
    requires KeepsBut(a1, a2, {"header.generation"}) && KeepsBut(a2, a3, NavAttrs(store[id].spec.navs))
    requires KeepsBut(a3, a4, {"scriptLibrary.generation"})
    ensures Records(store, id, a4)
  {
    hide Recorded, NavsRecorded, KeepsBut, NavAttrs;
    var spec := store[id].spec;
    var n, l := NavAttrs(spec.navs), {"scriptLibrary.generation"};
    AttrsEnd();
    NavAttrsEnd(spec.navs);
    AttrsDiffer();
    KeptOn(a2, a3, a4, n, l);
    KeptOn(a1, a2, a4, {"header.generation"}, n + l);
    RecordedStill(store, id, spec.footer, "footer.generation", a1, a4, {"header.generation"} + (n + l));
    RecordedStill(store, id, spec.header, "header.generation", a2, a4, n + l);
    NavsRecordedStill(store, id, spec.navs, a3, a4, l);
  }

  /** The same of a page's pass, behind its archetype. */
  lemma PageRecords(store: Store, id: Id, navs: Navs, a1: Attributes, a2: Attributes, a3: Attributes, a4: Attributes,
                    a5: Attributes, a6: Attributes)
    requires id in store && store[id].spec.PageSpec? && Answers(store, id, store[id].spec.archetype)
    requires navs == NavsOf(store[Named(id, store[id].spec.archetype)].spec) + store[id].spec.navs
    requires Recorded(store, id, Some(store[id].spec.archetype), a1, "archetype.generation")
    requires AppsRecorded(store, id, store[id].spec.contents, a2)
    requires KeepsBut(a1, a2, SlotAttrs(store[id].spec.contents))
    requires Recorded(store, id, store[id].spec.header, a3, "header.generation")
    requires KeepsBut(a2, a3, {"header.generation"})
    requires Recorded(store, id, store[id].spec.footer, a4, "footer.generation")
    requires KeepsBut(a3, a4, {"footer.generation"})
    requires NavsRecorded(store, id, navs, a5) && KeepsBut(a4, a5, NavAttrs(navs))
    requires Recorded(store, id, store[id].spec.scriptLibrary, a6, "scriptLibrary.generation")
    requires KeepsBut(a5, a6, {"scriptLibrary.generation"})
    ensures Records(store, id, a6)
  {
    hide Recorded, NavsRecorded, AppsRecorded, KeepsBut, NavAttrs, SlotAttrs, Present, Answers, Named;
    var spec := store[id].spec;
    var s, n, l := SlotAttrs(spec.contents), NavAttrs(navs), {"scriptLibrary.generation"};
    var h, f := {"header.generation"}, {"footer.generation"};
    AttrsEnd();
    NavAttrsEnd(navs);
    SlotAttrsEnd(spec.contents);
    AttrsDiffer();
    KeptOn(a4, a5, a6, n, l);
    KeptOn(a3, a4, a6, f, n + l);
    KeptOn(a2, a3, a6, h, f + (n + l));
    KeptOn(a1, a2, a6, s, h + (f + (n + l)));
    RecordedStill(store, id, Some(spec.archetype), "archetype.generation", a1, a6, s + (h + (f + (n + l))));
    AppsRecordedStill(store, id, spec.contents, a2, a6, h + (f + (n + l)));
    RecordedStill(store, id, spec.header, "header.generation", a3, a6, f + (n + l));
    RecordedStill(store, id, spec.footer, "footer.generation", a4, a6, n + l);
    NavsRecordedStill(store, id, navs, a5, a6, l);
  }

  function TranslationAttrs(refs: seq<Ref>): set<string> {
    {"kdex-default-translation" + ".translation.generation"}
    + set r | r in refs :: r.name + ".translation.generation"
  }

  lemma TranslationAttrsEnd(refs: seq<Ref>)
    ensures forall attr :: attr in TranslationAttrs(refs) ==> EndsIn(attr, 'n')
  {
    hide EndsIn;
    TranslationAttrEnds("kdex-default-translation");
    forall attr | attr in TranslationAttrs(refs) ensures EndsIn(attr, 'n') {
      if attr != "kdex-default-translation" + ".translation.generation" {
        var r :| r in refs && attr == r.name + ".translation.generation";
        TranslationAttrEnds(r.name);
      }
    }
  }

  lemma SameBeforeSuffix(a: string, b: string, suffix: string)
    requires a + suffix == b + suffix
    ensures a == b
  {
    assert |a| == |b|;
    assert a == (a + suffix)[..|a|] && b == (b + suffix)[..|b|];
  }

  /** One more translation, whose attribute may be that of an earlier one. */
  lemma OneTranslationMore(store: Store, id: Id, refs: seq<Ref>, r: Ref, before: Attributes, after: Attributes)
    requires TranslationsRecorded(store, id, refs, before)
    requires Recorded(store, id, Some(r), after, r.name + ".translation.generation")
    requires KeepsBut(before, after, {r.name + ".translation.generation"})
    ensures TranslationsRecorded(store, id, refs + [r], after)
  {
    hide Recorded, KeepsBut;
    var more := refs + [r];
    forall i | 0 <= i < |more| && more[i].name != "kdex-default-translation" && LastNamed(more, i)
      ensures Recorded(store, id, Some(more[i]), after, more[i].name + ".translation.generation")
    {
      if i < |refs| {
        assert more[|refs|].name != more[i].name;
        assert LastNamed(refs, i) by {
          forall j | i < j < |refs| ensures refs[j].name != refs[i].name {
            assert more[j].name != more[i].name;
          }
        }
        if refs[i].name + ".translation.generation" == r.name + ".translation.generation" {
          SameBeforeSuffix(refs[i].name, r.name, ".translation.generation");
        }
        RecordedStill(store, id, Some(refs[i]), refs[i].name + ".translation.generation", before, after,
                      {r.name + ".translation.generation"});
      }
    }
  }

  /** Recording the default translation leaves those of other names. */
  lemma DefaultIsApart(store: Store, id: Id, refs: seq<Ref>, before: Attributes, after: Attributes)
    requires TranslationsRecorded(store, id, refs, before)
    requires KeepsBut(before, after, {"kdex-default-translation" + ".translation.generation"})
    ensures TranslationsRecorded(store, id, refs, after)
  {
    hide Recorded, KeepsBut, LastNamed;
    var attr := "kdex-default-translation" + ".translation.generation";
    forall i | 0 <= i < |refs| && refs[i].name != "kdex-default-translation" && LastNamed(refs, i)
      ensures Recorded(store, id, Some(refs[i]), after, refs[i].name + ".translation.generation")
    {
      if refs[i].name + ".translation.generation" == attr {
        SameBeforeSuffix(refs[i].name, "kdex-default-translation", ".translation.generation");
      }
      RecordedStill(store, id, Some(refs[i]), refs[i].name + ".translation.generation", before, after, {attr});
    }
  }

  /** The same of a host's pass: its pages, its theme and library, and its translations. */
  lemma HostRecords(store: Store, id: Id, a1: Attributes, a2: Attributes, a3: Attributes, a4: Attributes)
    requires id in store && store[id].spec.HostSpec?
    requires Recorded(store, id, store[id].spec.announcement, a1, "announcement.utilitypage.generation")
    requires Recorded(store, id, store[id].spec.error, a1, "error.utilitypage.generation")
    requires Recorded(store, id, store[id].spec.login, a1, "login.utilitypage.generation")
    requires Recorded(store, id, store[id].spec.theme, a2, "theme.generation")
    requires KeepsBut(a1, a2, {"theme.generation"})
    requires Recorded(store, id, store[id].spec.scriptLibrary, a3, "scriptLibrary.generation")
    requires KeepsBut(a2, a3, {"scriptLibrary.generation"})
    requires TranslationsRecorded(store, id, store[id].spec.translations, a4) && DefaultRecorded(store, a4)
    requires KeepsBut(a3, a4, TranslationAttrs(store[id].spec.translations))
    ensures Records(store, id, a4)
  {
    hide Recorded, TranslationsRecorded, DefaultRecorded, KeepsBut, TranslationAttrs;
    var spec := store[id].spec;
    var t, l, n := {"theme.generation"}, {"scriptLibrary.generation"}, TranslationAttrs(spec.translations);
    AttrsEnd();
    AttrsDiffer();
    TranslationAttrsEnd(spec.translations);
    KeptOn(a2, a3, a4, l, n);
    KeptOn(a1, a2, a4, t, l + n);
    RecordedStill(store, id, spec.announcement, "announcement.utilitypage.generation", a1, a4, t + (l + n));
    RecordedStill(store, id, spec.error, "error.utilitypage.generation", a1, a4, t + (l + n));
    RecordedStill(store, id, spec.login, "login.utilitypage.generation", a1, a4, t + (l + n));
    RecordedStill(store, id, spec.theme, "theme.generation", a2, a4, l + n);
    RecordedStill(store, id, spec.scriptLibrary, "scriptLibrary.generation", a3, a4, n);
  }

  /** Attributes of navigations are recorded when the group that holds exactly them is. */
  lemma GotNavsRecorded(store: Store, id: Id, navs: Navs, attributes: Attributes, got: Attributes)
    requires GotNavs(store, id, navs, navs.Keys, got)
    ensures NavsAnswer(store, id, navs) && NavsRecorded(store, id, navs, attributes + got)
    ensures KeepsBut(attributes, attributes + got, NavAttrs(navs))
  {
    forall name | name in navs
      ensures OptionAnswers(store, id, navs[name])
      ensures Recorded(store, id, navs[name], attributes + got, name + ".navigation.generation")
    {
      if navs[name].Some? {
        assert NavHolds(store, id, navs, name);
        AnswersHolds(store, id, navs[name].value);
        assert NavAttr(name) in got;
      }
    }
    forall key | key in got ensures key in NavAttrs(navs) {
      var name :| name in navs.Keys && name in navs && navs[name].Some? && key == NavAttr(name);
    }
  }

  lemma GotContentsRecorded(store: Store, id: Id, contents: seq<Content>, attributes: Attributes, got: Attributes)
    requires GotContents(store, id, contents, got)
    ensures AppsRecorded(store, id, contents, attributes + got)
    ensures KeepsBut(attributes, attributes + got, SlotAttrs(contents))
  {
    hide IsLast;
    forall i | 0 <= i < |contents| && contents[i].AppContent? && IsLast(contents, i)
      ensures Recorded(store, id, Some(contents[i].app), attributes + got, contents[i].slot + ".content.generation")
    {
      assert AppLast(contents, i);
      assert GotApp(store, id, contents, i, got);
      AnswersHolds(store, id, contents[i].app);
    }
    forall key | key in got ensures key in SlotAttrs(contents) {
      var i :| 0 <= i < |contents| && AppLast(contents, i) && key == SlotAttr(contents[i].slot);
      assert contents[i] in contents;
    }
  }

  // ---------- steps that the passes share ----------

  /** Resolve an optional reference and record the generation it was found at. */
  method ResolveOption(store: Store, id: Id, ref: Option<Ref>, attr: string, attributes: Attributes,
                       ghost rest: seq<Entry>)
    returns (stop: bool, after: Attributes)
    ensures var here := Ahead(store, id, OptionEntries(id, ref, attr) + rest, attributes);
      here == if stop then (false, after) else Ahead(store, id, rest, after)
    ensures stop <==> !OptionAnswers(store, id, ref)
    ensures stop ==> after == attributes
    ensures !stop ==> Recorded(store, id, ref, after, attr) && KeepsBut(attributes, after, {attr})
  {
    hide Ahead;
    OptionAhead(store, id, ref, attr, rest, attributes);
    var resolution := Resolve(store, id, ref);
    if resolution.Stops() {
      return true, attributes;
    }
    after := attributes;
    if resolution.Found? {
      after := after[attr := store[resolution.id].gen];
    }
    stop := false;
  }

  /** Record the generations of the resolved navigations, in whatever order. */
  method RecordNavigations(store: Store, id: Id, navs: Navs, navigations: map<string, Id>, attributes: Attributes)
    returns (after: Attributes)
    requires forall n :: n in NavNeeds(id, navs) ==> Holds(store, id, n)
    requires navigations == NavTargets(id, navs)
    requires forall name :: name in navigations ==> navigations[name] in store
    ensures exists got :: GotNavs(store, id, navs, navs.Keys, got) && after == attributes + got
  {
    hide Observe, GotNavs, NavAttr, NavGen, NavNeeds, NavTargets;
    after := attributes;
    ghost var got: Attributes := map[];
    NoNavs(store, id, navs);
    var left := navigations.Keys;
    ghost var done: set<string> := {};
    while left != {}
      invariant left <= navigations.Keys && done == navigations.Keys - left
      invariant after == attributes + got && GotNavs(store, id, navs, done, got)
      decreases left
    {
      var k :| k in left;
      NavResolved(store, id, navs, k);
      GotOneMore(store, id, navs, done, got, k);
      left, done := left - {k}, done + {k};
      after := after[NavAttr(k) := store[navigations[k]].gen];
      got := got[NavAttr(k) := NavGen(store, id, navs, k)];
    }
    AllNavs(store, id, navs, done, got);
  }

  lemma NavResolved(store: Store, id: Id, navs: Navs, k: string)
    requires forall n :: n in NavNeeds(id, navs) ==> Holds(store, id, n)
    requires k in NavTargets(id, navs)
    ensures k in navs && navs[k].Some?
    ensures NavHolds(store, id, navs, k) && NavGen(store, id, navs, k) == store[NavTargets(id, navs)[k]].gen
  {
    assert RefNeed(id, navs[k].value) in NavNeeds(id, navs);
  }

  lemma AllNavs(store: Store, id: Id, navs: Navs, done: set<string>, got: Attributes)
    requires GotNavs(store, id, navs, done, got) && done == NavTargets(id, navs).Keys
    requires forall n :: n in NavNeeds(id, navs) ==> Holds(store, id, n)
    ensures GotNavs(store, id, navs, navs.Keys, got)
  {
    forall name | name in navs && navs[name].Some? ensures name in done {
      assert RefNeed(id, navs[name].value) in NavNeeds(id, navs);
    }
  }

  /** Resolve a map of navigations and record what was found. */
  method ResolveNavigations(store: Store, id: Id, navs: Navs, attributes: Attributes, ghost names: seq<string>,
                            ghost rest: seq<Entry>)
    returns (stop: bool, after: Attributes)
    requires Visits(names, navs.Keys)
    ensures var here := Ahead(store, id, Sealed(NavGroup(id, navs, names)) + rest, attributes);
      here == if stop then (false, after) else Ahead(store, id, rest, after)
    ensures stop <==> !NavsAnswer(store, id, navs)
    ensures !stop ==> NavsRecorded(store, id, navs, after) && KeepsBut(attributes, after, NavAttrs(navs))
  {
    hide Ahead, GotNavs, Observe, NavsAnswer, NavsRecorded, KeepsBut, NavAttrs;
    NavsAnswerHold(store, id, navs);
    var navigations := ResolvePageNavigations(store, id, navs);
    if navigations.None? {
      NavsAhead(store, id, navs, names, rest, attributes, map[]);
      return true, attributes;
    }
    after := RecordNavigations(store, id, navs, navigations.value, attributes);
    ghost var got :| GotNavs(store, id, navs, navs.Keys, got) && after == attributes + got;
    NavsAhead(store, id, navs, names, rest, attributes, got);
    GotNavsRecorded(store, id, navs, attributes, got);
    stop := false;
  }

  /** `got` holds exactly the generations of the apps in the slots of `done`. */
  ghost predicate GotSlots(store: Store, slots: map<string, Resolved>, done: set<string>, got: Attributes) {
    && (forall k :: k in done && k in slots && slots[k].Filled? ==>
          slots[k].app in store && SlotAttr(k) in got && got[SlotAttr(k)] == store[slots[k].app].gen)
    && (forall key :: key in got ==> exists k :: k in done && k in slots && slots[k].Filled? && key == SlotAttr(k))
  }

  lemma OneSlotDone(store: Store, slots: map<string, Resolved>, done: set<string>, got: Attributes, k: string)
    requires GotSlots(store, slots, done, got) && k in slots && (slots[k].Filled? ==> slots[k].app in store)
    ensures GotSlots(store, slots, done + {k},
                     if slots[k].Filled? then got[SlotAttr(k) := store[slots[k].app].gen] else got)
  {
    hide SlotAttr;
    forall j ensures SlotAttr(j) == SlotAttr(k) ==> j == k {
      SlotAttrInjective(j, k);
    }
  }

  lemma LastOfSlot(contents: seq<Content>, slot: string) returns (i: nat)
    requires exists c :: c in contents && c.slot == slot
    ensures i < |contents| && contents[i].slot == slot && IsLast(contents, i)
  {
    var c :| c in contents && c.slot == slot;
    var k :| 0 <= k < |contents| && contents[k] == c;
    i := |contents| - 1;
    while contents[i].slot != slot
      invariant k <= i < |contents| && forall j :: i < j < |contents| ==> contents[j].slot != slot
      decreases i
    {
      i := i - 1;
    }
  }

  lemma SlotsAreContents(store: Store, id: Id, contents: seq<Content>, slots: map<string, Resolved>, got: Attributes)
    requires SlotsOf(store, id, contents, slots) && GotSlots(store, slots, slots.Keys, got)
    ensures GotContents(store, id, contents, got)
  {
    hide IsLast, SlotAttr;
    forall key | key in got
      ensures exists i :: 0 <= i < |contents| && AppLast(contents, i) && key == SlotAttr(contents[i].slot)
    {
      var k :| k in slots && slots[k].Filled? && key == SlotAttr(k);
      var i := LastOfSlot(contents, k);
      assert AppLast(contents, i);
    }
  }

  /** Record the generations of the apps that fill slots, in whatever order. */
  method RecordContents(store: Store, id: Id, contents: seq<Content>, slots: map<string, Resolved>,
                        attributes: Attributes)
    returns (after: Attributes)
    requires SlotsOf(store, id, contents, slots)
    ensures exists got :: GotContents(store, id, contents, got) && after == attributes + got
  {
    hide GotSlots, SlotsOf, SlotAttr;
    after := attributes;
    ghost var got: Attributes := map[];
    NoSlotsDone(store, slots);
    var left := slots.Keys;
    ghost var done: set<string> := {};
    while left != {}
      invariant left <= slots.Keys && done == slots.Keys - left
      invariant after == attributes + got && GotSlots(store, slots, done, got)
      decreases left
    {
      var k :| k in left;
      if slots[k].Filled? {
        SlotInStore(store, id, contents, slots, k);
      }
      OneSlotDone(store, slots, done, got, k);
      left, done := left - {k}, done + {k};
      if slots[k].Filled? {
        after := after[SlotAttr(k) := store[slots[k].app].gen];
        got := got[SlotAttr(k) := store[slots[k].app].gen];
      }
    }
    assert done == slots.Keys;
    SlotsAreContents(store, id, contents, slots, got);
  }

  lemma NoSlotsDone(store: Store, slots: map<string, Resolved>)
    ensures GotSlots(store, slots, {}, map[])
  {
  }

  lemma SlotInStore(store: Store, id: Id, contents: seq<Content>, slots: map<string, Resolved>, k: string)
    requires SlotsOf(store, id, contents, slots) && k in slots && slots[k].Filled?
    ensures slots[k].app in store
  {
    hide IsLast;
    var i := LastOfSlot(contents, k);
  }

  /** Resolve the contents of a page and record what was found. */
  method ResolveSlots(store: Store, id: Id, contents: seq<Content>, attributes: Attributes, ghost rest: seq<Entry>)
    returns (stop: bool, after: Attributes)
    ensures var here := Ahead(store, id, Sealed(ContentGroup(id, contents)) + rest, attributes);
      here == if stop then (false, after) else Ahead(store, id, rest, after)
    ensures stop <==> !AppsAnswer(store, id, contents)
    ensures !stop ==> AppsRecorded(store, id, contents, after) && KeepsBut(attributes, after, SlotAttrs(contents))
  {
    hide Ahead, GotContents, SlotsOf, Observe, AppsAnswer, AppsRecorded, KeepsBut, SlotAttrs;
    AppsAnswerHold(store, id, contents);
    var slots := ResolveContents(store, id, contents);
    if slots.None? {
      ContentsAhead(store, id, contents, rest, attributes, map[]);
      return true, attributes;
    }
    after := RecordContents(store, id, contents, slots.value, attributes);
    ghost var got :| GotContents(store, id, contents, got) && after == attributes + got;
    ContentsAhead(store, id, contents, rest, attributes, got);
    GotContentsRecorded(store, id, contents, attributes, got);
    stop := false;
  }

  // ---------- the passes ----------

  /** The pass of the theme, header, footer and navigation controllers. */
  method StyledPass(store: Store, id: Id) returns (ready: bool, attributes: Attributes)
    requires id in store && store[id].spec.StyledSpec?
    ensures Completes(store, id, ready, attributes)
    ensures ready <==> Resolves(store, id)
    ensures ready ==> Records(store, id, attributes)
  {
    hide Ahead;
    var o := store[id];
    ghost var plan := OptionEntries(id, o.spec.scriptLibrary, "scriptLibrary.generation");
    assert FullPlan(store, id) == plan == plan + [];
    var stop;
    stop, attributes := ResolveOption(store, id, o.spec.scriptLibrary, "scriptLibrary.generation", o.status.attrs, []);
    NothingAhead(store, id, attributes);
    ready := !stop;
  }

  /** The registry's verdict on a package, with the contents of its secret if it names one. */
  predicate Validates(package: Package, content: Option<int>) {
    if content.Some? then content.value in package.accepted else package.acceptedWithout
  }

  /** The pass of the script library and app controllers. A secret's generation is recorded even
      when the package is then rejected. */
  method PackagedPass(store: Store, id: Id) returns (ready: bool, attributes: Attributes)
    requires id in store && store[id].spec.PackagedSpec?
    requires forall x :: x in store && x.kind == Kind(Secret, false) ==> store[x].spec.SecretSpec?
    ensures Completes(store, id, ready, attributes)
    ensures ready <==> Resolves(store, id)
    ensures ready ==> Records(store, id, attributes)
  {
    hide Ahead;
    var o := store[id];
    attributes := o.status.attrs;
    NothingAhead(store, id, attributes);
    var content := None;
    if o.spec.package.Some? {
      var package := o.spec.package.value;
      ghost var e := Entry(PackageNeed(id, package), Some("secret.generation"), true);
      assert FullPlan(store, id) == [e] + [];
      EntryAhead(store, id, e, [], attributes);
      if package.secret.Some? {
        var secret := Id(Kind(Secret, false), id.ns, package.secret.value);
        if secret !in store {
          return false, attributes;
        }
        attributes := attributes["secret.generation" := store[secret].gen];
        content := Some(store[secret].spec.content);
      }
      NothingAhead(store, id, attributes);
      if !Validates(package, content) {
        return false, attributes;
      }
    }
    return true, attributes;
  }

  /** The pass of the archetype controller. */
  method ArchetypePass(store: Store, id: Id) returns (ready: bool, attributes: Attributes)
    requires id in store && store[id].spec.ArchetypeSpec?
    ensures Completes(store, id, ready, attributes)
    ensures ready <==> Resolves(store, id)
    ensures ready ==> Records(store, id, attributes)
  {
    hide Ahead, OptionEntries, NavGroup, Sealed, OptionAnswers, NavsAnswer, Recorded, NavsRecorded, KeepsBut, NavAttrs,
         Records;
    var o := store[id];
    var spec := o.spec;
    ghost var names := SomeOrder(spec.navs.Keys);
    ghost var f := OptionEntries(id, spec.footer, "footer.generation");
    ghost var h := OptionEntries(id, spec.header, "header.generation");
    ghost var n := Sealed(NavGroup(id, spec.navs, names));
    ghost var l := OptionEntries(id, spec.scriptLibrary, "scriptLibrary.generation");
    assert FullPlan(store, id) == f + h + n + l == f + (h + (n + (l + [])));
    var stop;
    ready := false;
    stop, attributes := ResolveOption(store, id, spec.footer, "footer.generation", o.status.attrs, h + (n + (l + [])));
    if stop {
      return;
    }
    ghost var a1 := attributes;
    stop, attributes := ResolveOption(store, id, spec.header, "header.generation", attributes, n + (l + []));
    if stop {
      return;
    }
    ghost var a2 := attributes;
    stop, attributes := ResolveNavigations(store, id, spec.navs, attributes, names, l + []);
    if stop {
      return;
    }
    ghost var a3 := attributes;
    stop, attributes := ResolveOption(store, id, spec.scriptLibrary, "scriptLibrary.generation", attributes, []);
    if stop {
      return;
    }
    NothingAhead(store, id, attributes);
    ArchetypeRecords(store, id, a1, a2, a3, attributes);
    ready := true;
  }

  function ArchetypeEntry(id: Id, spec: Spec): Entry
    requires spec.PageSpec?
  {
    Entry(RefNeed(id, spec.archetype), Some("archetype.generation"), true)
  }

  /** A page whose archetype does not resolve looks no further. */
  lemma ArchetypeStops(store: Store, id: Id, attributes: Attributes)
    requires id in store && store[id].spec.PageSpec?
    requires Resolve(store, id, Some(store[id].spec.archetype)).Stops()
    ensures Ahead(store, id, FullPlan(store, id), attributes) == (false, attributes)
  {
    hide Ahead;
    var e := ArchetypeEntry(id, store[id].spec);
    assert FullPlan(store, id) == [e] + [];
    EntryAhead(store, id, e, [], attributes);
  }

  /** Behind its archetype a page makes the lookups of its page plan. */
  lemma ArchetypeFound(store: Store, id: Id, attributes: Attributes, navs: Navs, names: seq<string>)
    requires id in store && store[id].spec.PageSpec?
    requires Resolve(store, id, Some(store[id].spec.archetype)).Found?
    requires var spec, aid := store[id].spec, Resolve(store, id, Some(store[id].spec.archetype)).id;
             navs == NavsOf(store[aid].spec) + spec.navs && names == SomeOrder(navs.Keys)
    ensures var spec, aid := store[id].spec, Resolve(store, id, Some(store[id].spec.archetype)).id;
      Ahead(store, id, FullPlan(store, id), attributes)
      == Ahead(store, id, Sealed(ContentGroup(id, spec.contents))
                          + (OptionEntries(id, spec.header, "header.generation")
                             + (OptionEntries(id, spec.footer, "footer.generation")
                                + (Sealed(NavGroup(id, navs, names))
                                   + (OptionEntries(id, spec.scriptLibrary, "scriptLibrary.generation") + [])))),
               attributes["archetype.generation" := store[aid].gen])
  {
    hide Ahead, OptionEntries, NavGroup, ContentGroup, Sealed;
    var spec := store[id].spec;
    var e, aid := ArchetypeEntry(id, spec), Resolve(store, id, Some(spec.archetype)).id;
    var plan := PagePlan(id, spec, NavsOf(store[aid].spec), names);
    assert FullPlan(store, id) == [e] + plan;
    EntryAhead(store, id, e, plan, attributes);
    FiveParts(Sealed(ContentGroup(id, spec.contents)), OptionEntries(id, spec.header, "header.generation"),
              OptionEntries(id, spec.footer, "footer.generation"), Sealed(NavGroup(id, navs, names)),
              OptionEntries(id, spec.scriptLibrary, "scriptLibrary.generation"));
  }

  lemma FiveParts(a: seq<Entry>, b: seq<Entry>, c: seq<Entry>, d: seq<Entry>, e: seq<Entry>)
    ensures a + b + c + d + e == a + (b + (c + (d + (e + []))))
  {
  }

  /** The pass of the utility page controller: archetype, contents, header, footer, the navigations
      of the archetype overridden by the page's own, and the script library. */
  method PagePass(store: Store, id: Id) returns (ready: bool, attributes: Attributes)
    requires id in store && store[id].spec.PageSpec?
    ensures Completes(store, id, ready, attributes)
    ensures ready <==> Resolves(store, id)
    ensures ready ==> Records(store, id, attributes)
  {
    hide Ahead, OptionEntries, NavGroup, ContentGroup, Sealed, Observe, FullPlan, NavsOf, OptionAnswers, NavsAnswer,
         AppsAnswer, NavsRecorded, AppsRecorded, KeepsBut, NavAttrs, SlotAttrs, Records;
    var o := store[id];
    var spec := o.spec;
    ready, attributes := false, o.status.attrs;
    var archetype := Resolve(store, id, Some(spec.archetype));
    if archetype.Stops() {
      ArchetypeStops(store, id, attributes);
      return;
    }
    var inherited := new NavTable(NavsOf(store[archetype.id].spec));
    var own := new NavTable(spec.navs);
    ghost var navs := inherited.entries + spec.navs;
    ghost var names := SomeOrder(navs.Keys);
    ghost var h := OptionEntries(id, spec.header, "header.generation");
    ghost var f := OptionEntries(id, spec.footer, "footer.generation");
    ghost var n := Sealed(NavGroup(id, navs, names));
    ghost var l := OptionEntries(id, spec.scriptLibrary, "scriptLibrary.generation");
    ArchetypeFound(store, id, attributes, navs, names);
    attributes := attributes["archetype.generation" := store[archetype.id].gen];
    ghost var a1 := attributes;
    assert Recorded(store, id, Some(spec.archetype), a1, "archetype.generation");
    hide Recorded, Answers, Named, Present;
    var stop;
    stop, attributes := ResolveSlots(store, id, spec.contents, attributes, h + (f + (n + (l + []))));
    if stop {
      return;
    }
    ghost var a2 := attributes;
    stop, attributes := ResolveOption(store, id, spec.header, "header.generation", attributes, f + (n + (l + [])));
    if stop {
      return;
    }
    ghost var a3 := attributes;
    stop, attributes := ResolveOption(store, id, spec.footer, "footer.generation", attributes, n + (l + []));
    if stop {
      return;
    }
    ghost var a4 := attributes;
    var merged := EffectiveNavs(inherited, own);
    stop, attributes := ResolveNavigations(store, id, merged.entries, attributes, names, l + []);
    if stop {
      return;
    }
    ghost var a5 := attributes;
    stop, attributes := ResolveOption(store, id, spec.scriptLibrary, "scriptLibrary.generation", attributes, []);
    if stop {
      return;
    }
    NothingAhead(store, id, attributes);
    PageRecords(store, id, navs, a1, a2, a3, a4, a5, attributes);
    ready := true;
  }

  // ---------- the references of a host ----------

  const PAGE_TYPES := [Announcement, Error, Login]

  function PageRef(spec: Spec, pageType: PageType): Option<Ref>
    requires spec.HostSpec?
  {
    match pageType
    case Announcement => spec.announcement
    case Error => spec.error
    case Login => spec.login
  }

  function PageAttr(pageType: PageType): string {
    match pageType
    case Announcement => "announcement.utilitypage.generation"
    case Error => "error.utilitypage.generation"
    case Login => "login.utilitypage.generation"
  }

  /** The lookups of the pages from the `k`th type on. */
  function PagesFrom(id: Id, spec: Spec, k: nat): seq<Entry>
    requires spec.HostSpec? && k <= |PAGE_TYPES|
    decreases |PAGE_TYPES| - k
  {
    if k == |PAGE_TYPES| then []
    else
      PageEntries(id, PageRef(spec, PAGE_TYPES[k]), PAGE_TYPES[k], PageAttr(PAGE_TYPES[k])) + PagesFrom(id, spec, k + 1)
  }

  predicate IsDefaultUtilityPage(ref: Ref) {
    ref.name in DEFAULT_PAGES
  }

  /** A page that is missing or not Ready stops the pass unless it bears a default name; one of the
      wrong type always does. */
  method ResolveUtilityPage(store: Store, id: Id, ref: Option<Ref>, pageType: PageType, attributes: Attributes,
                            ghost rest: seq<Entry>)
    returns (stop: bool, after: Attributes)
    ensures var here := Ahead(store, id, PageEntries(id, ref, pageType, PageAttr(pageType)) + rest, attributes);
      here == if stop then (false, after) else Ahead(store, id, rest, after)
    ensures stop <==> !PageFits(store, id, ref, pageType)
    ensures !stop ==> Recorded(store, id, ref, after, PageAttr(pageType))
    ensures KeepsBut(attributes, after, if stop then {} else {PageAttr(pageType)})
  {
    hide Ahead;
    after := attributes;
    var resolution := Resolve(store, id, ref);
    if ref.None? {
      assert PageEntries(id, ref, pageType, PageAttr(pageType)) + rest == rest;
      return false, after;
    }
    ghost var e := Entry(PageNeed(id, ref.value, pageType), Some(PageAttr(pageType)), true);
    EntryAhead(store, id, e, rest, attributes);
    if resolution.Stops() && !IsDefaultUtilityPage(ref.value) {
      return true, after;
    }
    if resolution.Found? || resolution.Unready? {
      if !PageOfType(store[resolution.id], pageType) {
        return true, after;
      }
      after := after[PageAttr(pageType) := store[resolution.id].gen];
    }
    stop := false;
  }

  method ResolveUtilityPages(store: Store, id: Id, spec: Spec, attributes: Attributes, ghost rest: seq<Entry>)
    returns (stop: bool, after: Attributes)
    requires spec.HostSpec?
    ensures var here := Ahead(store, id, PagesFrom(id, spec, 0) + rest, attributes);
      here == if stop then (false, after) else Ahead(store, id, rest, after)
    ensures stop <==> !(&& PageFits(store, id, spec.announcement, Announcement)
                        && PageFits(store, id, spec.error, Error)
                        && PageFits(store, id, spec.login, Login))
    ensures !stop ==>
      && Recorded(store, id, spec.announcement, after, "announcement.utilitypage.generation")
      && Recorded(store, id, spec.error, after, "error.utilitypage.generation")
      && Recorded(store, id, spec.login, after, "login.utilitypage.generation")
  {
    hide Ahead, PageEntries, PageFits, Recorded, KeepsBut;
    AttrsDiffer();
    after := attributes;
    for k := 0 to |PAGE_TYPES|
      invariant Ahead(store, id, PagesFrom(id, spec, 0) + rest, attributes)
             == Ahead(store, id, PagesFrom(id, spec, k) + rest, after)
      invariant k > 0 ==> PageFits(store, id, spec.announcement, Announcement)
      invariant k > 0 ==> Recorded(store, id, spec.announcement, after, "announcement.utilitypage.generation")
      invariant k > 1 ==> PageFits(store, id, spec.error, Error)
      invariant k > 1 ==> Recorded(store, id, spec.error, after, "error.utilitypage.generation")
      invariant k > 2 ==> PageFits(store, id, spec.login, Login)
      invariant k > 2 ==> Recorded(store, id, spec.login, after, "login.utilitypage.generation")
    {
      ghost var before := after;
      var pageType := PAGE_TYPES[k];
      ghost var first := PageEntries(id, PageRef(spec, pageType), pageType, PageAttr(pageType));
      assert PagesFrom(id, spec, k) + rest == first + (PagesFrom(id, spec, k + 1) + rest);
      stop, after := ResolveUtilityPage(store, id, PageRef(spec, pageType), pageType, after,
                                        PagesFrom(id, spec, k + 1) + rest);
      if stop {
        return;
      }
      if k > 0 {
        RecordedStill(store, id, spec.announcement, "announcement.utilitypage.generation", before, after,
                      {PageAttr(pageType)});
      }
      if k > 1 {
        RecordedStill(store, id, spec.error, "error.utilitypage.generation", before, after, {PageAttr(pageType)});
      }
    }
    assert PagesFrom(id, spec, |PAGE_TYPES|) + rest == rest;
    stop := false;
  }

  /** The configured translations, and the default translation if it exists, Ready or not. */
  method ResolveTranslations(store: Store, id: Id, refs: seq<Ref>, attributes: Attributes, ghost rest: seq<Entry>)
    returns (stop: bool, after: Attributes)
    requires !id.kind.clustered
    ensures var attr := DEFAULT_TRANSLATION + ".translation.generation";
      var entries := TranslationEntries(id, refs) + ([Entry(DefaultTranslationNeed(), Some(attr), true)] + rest);
      Ahead(store, id, entries, attributes) == if stop then (false, after) else Ahead(store, id, rest, after)
    ensures stop <==> exists i :: 0 <= i < |refs| && !Answers(store, id, refs[i])
    ensures !stop ==> TranslationsRecorded(store, id, refs, after) && DefaultRecorded(store, after)
    ensures !stop ==> KeepsBut(attributes, after, TranslationAttrs(refs))
  {
    hide Ahead, Answers, Recorded, TranslationsRecorded, TranslationAttrs;
    NothingRecorded(store, id, attributes, TranslationAttrs(refs));
    var attr := DEFAULT_TRANSLATION + ".translation.generation";
    ghost var e := Entry(DefaultTranslationNeed(), Some(attr), true);
    after := attributes;
    for i := 0 to |refs|
      invariant Ahead(store, id, TranslationEntries(id, refs) + ([e] + rest), attributes)
             == Ahead(store, id, TranslationEntries(id, refs[i..]) + ([e] + rest), after)
      invariant forall j :: 0 <= j < i ==> Answers(store, id, refs[j])
      invariant TranslationsRecorded(store, id, refs[..i], after)
      invariant KeepsBut(attributes, after, TranslationAttrs(refs))
    {
      ghost var before := after;
      OneTranslation(id, refs[i..], [e] + rest);
      stop, after := ResolveOption(store, id, Some(refs[i]), refs[i].name + ".translation.generation", after,
                                   TranslationEntries(id, refs[i..][1..]) + ([e] + rest));
      if stop {
        return;
      }
      OneTranslationMore(store, id, refs[..i], refs[i], before, after);
      assert refs[..i + 1] == refs[..i] + [refs[i]];
      AmongTranslationAttrs(refs, i);
      KeptWithin(attributes, before, after, TranslationAttrs(refs), refs[i].name + ".translation.generation");
    }
    assert refs[..|refs|] == refs;
    ghost var before := after;
    assert TranslationEntries(id, refs[|refs|..]) + ([e] + rest) == [e] + rest;
    EntryAhead(store, id, e, rest, after);
    var resolution := Resolve(store, id, Some(Ref(Known(Kind(Translation, true)), DEFAULT_TRANSLATION, "")));
    if resolution.Found? || resolution.Unready? {
      after := after[attr := store[resolution.id].gen];
    }
    stop := false;
    AmongTranslationAttrs(refs, 0);
    assert KeepsBut(before, after, {attr});
    DefaultIsApart(store, id, refs, before, after);
    KeptWithin(attributes, before, after, TranslationAttrs(refs), attr);
  }

  lemma NothingRecorded(store: Store, id: Id, attributes: Attributes, touched: set<string>)
    ensures TranslationsRecorded(store, id, [], attributes) && KeepsBut(attributes, attributes, touched)
  {
  }

  lemma AmongTranslationAttrs(refs: seq<Ref>, i: nat)
    ensures "kdex-default-translation" + ".translation.generation" in TranslationAttrs(refs)
    ensures i < |refs| ==> refs[i].name + ".translation.generation" in TranslationAttrs(refs)
  {
  }

  lemma KeptWithin(a: Attributes, b: Attributes, c: Attributes, s: set<string>, attr: string)
    requires KeepsBut(a, b, s) && KeepsBut(b, c, {attr}) && attr in s
    ensures KeepsBut(a, c, s)
  {
  }

  lemma OneTranslation(id: Id, refs: seq<Ref>, rest: seq<Entry>)
    requires refs != []
    ensures TranslationEntries(id, refs) + rest
         == OptionEntries(id, Some(refs[0]), refs[0].name + ".translation.generation")
            + (TranslationEntries(id, refs[1..]) + rest)
  {
  }

  /** The pass over a host that carries the finalizer: utility pages, theme, script library and
      translations, and then the objects it owns, whose fate is an oracle here. */
  method HostPass(store: Store, id: Id) returns (ready: bool, attributes: Attributes)
    requires id in store && store[id].spec.HostSpec? && !id.kind.clustered
    ensures Completes(store, id, ready, attributes)
    ensures ready <==> Resolves(store, id)
    ensures ready ==> Records(store, id, attributes)
  {
    hide Ahead, OptionEntries, TranslationEntries, PageEntries, PageFits, OptionAnswers, Answers, Recorded, KeepsBut,
         TranslationsRecorded, DefaultRecorded, TranslationAttrs, Records;
    var o := store[id];
    var spec := o.spec;
    ghost var t := OptionEntries(id, spec.theme, "theme.generation");
    ghost var l := OptionEntries(id, spec.scriptLibrary, "scriptLibrary.generation");
    ghost var d := Entry(DefaultTranslationNeed(), Some(DEFAULT_TRANSLATION + ".translation.generation"), true);
    ghost var c := Entry(Need(None, ChildrenUp), None, true);
    ghost var r := TranslationEntries(id, spec.translations) + ([d] + [c]);
    HostParts(store, id, d, c);
    var stop;
    ready := false;
    stop, attributes := ResolveUtilityPages(store, id, spec, o.status.attrs, t + (l + r));
    if stop {
      return;
    }
    ghost var a1 := attributes;
    stop, attributes := ResolveOption(store, id, spec.theme, "theme.generation", attributes, l + r);
    if stop {
      return;
    }
    ghost var a2 := attributes;
    stop, attributes := ResolveOption(store, id, spec.scriptLibrary, "scriptLibrary.generation", attributes, r);
    if stop {
      return;
    }
    ghost var a3 := attributes;
    stop, attributes := ResolveTranslations(store, id, spec.translations, attributes, [c]);
    if stop {
      return;
    }
    ChildrenAhead(store, id, c, attributes);
    HostRecords(store, id, a1, a2, a3, attributes);
    ready := o.up;
  }

  lemma HostParts(store: Store, id: Id, d: Entry, c: Entry)
    requires id in store && store[id].spec.HostSpec?
    requires d == Entry(DefaultTranslationNeed(), Some(DEFAULT_TRANSLATION + ".translation.generation"), true)
    requires c == Entry(Need(None, ChildrenUp), None, true)
    ensures var spec := store[id].spec;
      FullPlan(store, id)
      == PagesFrom(id, spec, 0)
         + (OptionEntries(id, spec.theme, "theme.generation")
            + (OptionEntries(id, spec.scriptLibrary, "scriptLibrary.generation")
               + (TranslationEntries(id, spec.translations) + ([d] + [c]))))
  {
    hide PageEntries, OptionEntries, TranslationEntries;
    var spec := store[id].spec;
    var a := PageEntries(id, spec.announcement, Announcement, "announcement.utilitypage.generation");
    var b := PageEntries(id, spec.error, Error, "error.utilitypage.generation");
    var g := PageEntries(id, spec.login, Login, "login.utilitypage.generation");
    assert PagesFrom(id, spec, 3) == [];
    assert PagesFrom(id, spec, 2) == g + [];
    assert PagesFrom(id, spec, 1) == b + (g + []);
    assert PagesFrom(id, spec, 0) == a + (b + (g + [])) == a + b + g;
  }

  lemma ChildrenAhead(store: Store, id: Id, c: Entry, attributes: Attributes)
    requires id in store && c == Entry(Need(None, ChildrenUp), None, true)
    ensures Ahead(store, id, [c], attributes) == (store[id].up, attributes)
  {
    var r := Look(store, id, c, attributes, map[]);
    assert attributes + map[] == attributes;
    assert r.ok == store[id].up && r.attrs == attributes;
    assert Eval(store, id, [c], attributes, map[]) == if r.ok then Eval(store, id, [c][1..], r.attrs, r.got) else r;
  }

  // ---------- the controllers ----------

  class Controller {
    var store: Store

    constructor (store: Store)
      ensures this.store == store
    {
      this.store := store;
    }

    /** One pass over an object, with the deferred status write, undisturbed. */
    method Reconcile(id: Id)
      requires forall x :: x in store ==> WellFormed(x, store[x].spec)
      requires id in store ==> id.kind.base != Secret && (id.kind.base == Host ==> store[id].held)
      modifies this
      ensures id !in old(store) ==> store == old(store)
      ensures id in old(store) ==>
        store == old(store)[id := old(store)[id].(status := Due(old(store), id))]
      ensures id in old(store) ==>
        && (store[id].status.ready <==> Resolves(old(store), id))
        && (store[id].status.ready ==> Records(old(store), id, store[id].status.attrs))
        && store[id].status.observed == old(store)[id].gen && store[id].status.judged
    {
      hide Completes, Due, OptionAnswers, PageFits, Answers, NavsAnswer, AppsAnswer, Recorded, NavsRecorded,
           AppsRecorded, TranslationsRecorded, DefaultRecorded, Named, Present;
      if id !in store {
        return;
      }
      var o := store[id];
      assert WellFormed(id, o.spec);
      var ready, attributes;
      match o.spec {
        case PackagedSpec(_) =>
          assert forall x :: x in store && x.kind == Kind(Secret, false) ==> WellFormed(x, store[x].spec);
          ready, attributes := PackagedPass(store, id);
        case StyledSpec(_) => ready, attributes := StyledPass(store, id);
        case ArchetypeSpec(_, _, _, _) => ready, attributes := ArchetypePass(store, id);
        case PageSpec(_, _, _, _, _, _, _) => ready, attributes := PagePass(store, id);
        case HostSpec(_, _, _, _, _, _) => ready, attributes := HostPass(store, id);
        case _ =>
          // A translation has nothing to look up.
          ready, attributes := true, o.status.attrs;
          TranslationCompletes(store, id);
      }
      CompletesDue(store, id, ready, attributes);
      store := store[id := o.(status := Status(ready, attributes, o.gen, true))];
    }
  }

  lemma TranslationCompletes(store: Store, id: Id)
    requires id in store && store[id].spec.TranslationSpec?
    ensures Completes(store, id, true, store[id].status.attrs)
  {
    assert FullPlan(store, id) == [];
  }
}
