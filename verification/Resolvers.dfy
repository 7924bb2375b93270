/** The resolver and the loops around it that the controllers call. */
module Resolvers {
  import opened Options
  import opened Objects
  import opened Needs
  import opened Readiness

  // ---------- the resolver ----------

  /** What `ResolveKDexObjectReference` returns: nothing for a nil reference; the object when it is
      Ready; and, together with the order to stop, the object that is not Ready, or none when it
      is missing or the reference itself is at fault. */
  datatype Resolution = Nothing | Found(id: Id) | Unready(id: Id) | Missing | Faulty
  {
    predicate Stops() {
      Unready? || Missing? || Faulty?
    }
  }

  /** The object that a reference names: cluster-scoped if either side is, otherwise in the
      namespace that is given, or else the referrer's own. */
  function Named(referrer: Id, ref: Ref): Id
    requires ref.kind.Known?
  {
    Id(ref.kind.kind,
       if referrer.kind.clustered || ref.kind.kind.clustered then ""
       else if ref.ns == "" then referrer.ns else ref.ns,
       ref.name)
  }

  /** The reference names a known kind, and no namespaced one from a cluster-scoped referrer. */
  predicate Sensible(referrer: Id, ref: Ref) {
    ref.kind.Known? && (referrer.kind.clustered ==> ref.kind.kind.clustered)
  }

  predicate Present(store: Store, referrer: Id, ref: Ref) {
    Sensible(referrer, ref) && Named(referrer, ref) in store
  }

  /** The object is there and Ready. */
  predicate Answers(store: Store, referrer: Id, ref: Ref) {
    Present(store, referrer, ref) && store[Named(referrer, ref)].status.ready
  }

  predicate OptionAnswers(store: Store, referrer: Id, ref: Option<Ref>) {
    ref.Some? ==> Answers(store, referrer, ref.value)
  }

  lemma AnswersHolds(store: Store, referrer: Id, ref: Ref)
    ensures Answers(store, referrer, ref) <==> Holds(store, referrer, RefNeed(referrer, ref))
    ensures Sensible(referrer, ref) <==> Target(referrer, ref).Some?
    ensures Sensible(referrer, ref) ==> Target(referrer, ref) == Some(Named(referrer, ref))
  {
  }

  /** A page of a host must be of the type that is asked for if it is there; and unless it bears a
      default name it must be there and Ready. */
  predicate PageFits(store: Store, host: Id, ref: Option<Ref>, pageType: PageType) {
    ref.Some? ==>
      && (Present(store, host, ref.value) ==>
            var o := store[Named(host, ref.value)]; o.spec.PageSpec? && o.spec.pageType == pageType)
      && (Answers(store, host, ref.value)
          || ref.value.name == "kdex-default-utility-page-announcement"
          || ref.value.name == "kdex-default-utility-page-error"
          || ref.value.name == "kdex-default-utility-page-login")
  }

  lemma PageFitsHolds(store: Store, host: Id, ref: Ref, pageType: PageType)
    ensures PageFits(store, host, Some(ref), pageType) <==> Holds(store, host, PageNeed(host, ref, pageType))
  {
    AnswersHolds(store, host, ref);
  }

  predicate NavsAnswer(store: Store, id: Id, navs: Navs) {
    forall name :: name in navs ==> OptionAnswers(store, id, navs[name])
  }

  predicate AppsAnswer(store: Store, id: Id, contents: seq<Content>) {
    forall i :: 0 <= i < |contents| && contents[i].AppContent? ==> Answers(store, id, contents[i].app)
  }

  /** The registry accepts the package, with what its secret holds if it names one. */
  predicate PackageFits(store: Store, id: Id, package: Package) {
    match package.secret
    case None => package.acceptedWithout
    case Some(name) =>
      var secret := Id(Kind(Secret, false), id.ns, name);
      secret in store && store[secret].spec.SecretSpec? && store[secret].spec.content in package.accepted
  }

  /** All that the object refers to is there and fit. A page also depends on the navigations of its
      archetype that it does not override. */
  predicate Resolves(store: Store, id: Id)
    requires id in store
  {
    match store[id].spec
    case SecretSpec(_) => true
    case TranslationSpec => true
    case PackagedSpec(package) => package.Some? ==> PackageFits(store, id, package.value)
    case StyledSpec(lib) => OptionAnswers(store, id, lib)
    case ArchetypeSpec(footer, header, navs, lib) =>
      && OptionAnswers(store, id, footer) && OptionAnswers(store, id, header)
      && NavsAnswer(store, id, navs) && OptionAnswers(store, id, lib)
    case PageSpec(_, archetype, contents, header, footer, navs, lib) =>
      && Answers(store, id, archetype) && AppsAnswer(store, id, contents)
      && OptionAnswers(store, id, header) && OptionAnswers(store, id, footer)
      && NavsAnswer(store, id, NavsOf(store[Named(id, archetype)].spec) + navs)
      && OptionAnswers(store, id, lib)
    case HostSpec(announcement, error, login, theme, lib, translations) =>
      && PageFits(store, id, announcement, Announcement) && PageFits(store, id, error, Error)
      && PageFits(store, id, login, Login)
      && OptionAnswers(store, id, theme) && OptionAnswers(store, id, lib)
      && (forall i :: 0 <= i < |translations| ==> Answers(store, id, translations[i]))
      && store[id].up
  }

  lemma OptionAnswersHold(store: Store, id: Id, ref: Option<Ref>)
    ensures OptionAnswers(store, id, ref) <==> forall n :: n in OptionNeeds(id, ref) ==> Holds(store, id, n)
  {
    if ref.Some? {
      AnswersHolds(store, id, ref.value);
      assert RefNeed(id, ref.value) in OptionNeeds(id, ref);
    }
  }

  lemma PagesFitHold(store: Store, id: Id, ref: Option<Ref>, pageType: PageType)
    ensures PageFits(store, id, ref, pageType)
       <==> forall n :: n in PageNeeds(id, ref, pageType) ==> Holds(store, id, n)
  {
    if ref.Some? {
      PageFitsHolds(store, id, ref.value, pageType);
      assert PageNeed(id, ref.value, pageType) in PageNeeds(id, ref, pageType);
    }
  }

  lemma TranslationsAnswerHold(store: Store, id: Id, refs: seq<Ref>)
    ensures (forall i :: 0 <= i < |refs| ==> Answers(store, id, refs[i]))
       <==> forall n :: n in (set r | r in refs :: RefNeed(id, r)) ==> Holds(store, id, n)
  {
    var needs := set r | r in refs :: RefNeed(id, r);
    forall i | 0 <= i < |refs|
      ensures RefNeed(id, refs[i]) in needs
      ensures Answers(store, id, refs[i]) <==> Holds(store, id, RefNeed(id, refs[i]))
    {
      AnswersHolds(store, id, refs[i]);
    }
    forall n | n in needs ensures exists i :: 0 <= i < |refs| && n == RefNeed(id, refs[i]) {
      var r :| r in refs && n == RefNeed(id, r);
      var i :| 0 <= i < |refs| && refs[i] == r;
    }
  }

  lemma NavsAnswerHold(store: Store, id: Id, navs: Navs)
    ensures NavsAnswer(store, id, navs) <==> forall n :: n in NavNeeds(id, navs) ==> Holds(store, id, n)
  {
    forall name | name in navs && navs[name].Some?
      ensures RefNeed(id, navs[name].value) in NavNeeds(id, navs)
      ensures Answers(store, id, navs[name].value) <==> Holds(store, id, RefNeed(id, navs[name].value))
    {
      AnswersHolds(store, id, navs[name].value);
    }
  }

  lemma AppsAnswerHold(store: Store, id: Id, contents: seq<Content>)
    ensures AppsAnswer(store, id, contents) <==> forall n :: n in ContentNeeds(id, contents) ==> Holds(store, id, n)
  {
    forall i | 0 <= i < |contents| && contents[i].AppContent?
      ensures RefNeed(id, contents[i].app) in ContentNeeds(id, contents)
      ensures Answers(store, id, contents[i].app) <==> Holds(store, id, RefNeed(id, contents[i].app))
    {
      assert contents[i] in contents;
      AnswersHolds(store, id, contents[i].app);
    }
    forall n | n in ContentNeeds(id, contents)
      ensures exists i :: 0 <= i < |contents| && contents[i].AppContent? && n == RefNeed(id, contents[i].app)
    {
      var c :| c in contents && c.AppContent? && n == RefNeed(id, c.app);
      var i :| 0 <= i < |contents| && contents[i] == c;
    }
  }

  lemma PageResolves(store: Store, id: Id)
    requires id in store && store[id].spec.PageSpec?
    ensures Recomputed(store, id) <==> Resolves(store, id)
  {
    hide Answers, AppsAnswer, NavsAnswer, OptionAnswers, NavNeeds, ContentNeeds, OptionNeeds, RefNeed, Holds, Target,
         InheritedNavs, Named;
    var spec := store[id].spec;
    AnswersHolds(store, id, spec.archetype);
    AppsAnswerHold(store, id, spec.contents);
    OptionAnswersHold(store, id, spec.header);
    OptionAnswersHold(store, id, spec.footer);
    OptionAnswersHold(store, id, spec.scriptLibrary);
    assert RefNeed(id, spec.archetype) in DirectNeeds(id, spec);
    if Answers(store, id, spec.archetype) {
      AnswerIsPresent(store, id, spec.archetype);
      var inherited := NavsOf(store[Named(id, spec.archetype)].spec);
      NavsAnswerHold(store, id, inherited + spec.navs);
      MergedNeeds(id, inherited, spec.navs);
    }
  }

  lemma AnswerIsPresent(store: Store, referrer: Id, ref: Ref)
    requires Answers(store, referrer, ref)
    ensures Named(referrer, ref) in store && Target(referrer, ref) == Some(Named(referrer, ref))
  {
  }

  lemma HostResolves(store: Store, id: Id)
    requires id in store && store[id].spec.HostSpec?
    ensures Recomputed(store, id) <==> Resolves(store, id)
  {
    hide Answers, PageFits, OptionAnswers, PageNeeds, OptionNeeds, RefNeed, Target;
    var spec := store[id].spec;
    PagesFitHold(store, id, spec.announcement, Announcement);
    PagesFitHold(store, id, spec.error, Error);
    PagesFitHold(store, id, spec.login, Login);
    OptionAnswersHold(store, id, spec.theme);
    OptionAnswersHold(store, id, spec.scriptLibrary);
    TranslationsAnswerHold(store, id, spec.translations);
    var children := Need(None, ChildrenUp);
    assert Holds(store, id, children) <==> store[id].up;
    assert Holds(store, id, DefaultTranslationNeed());
    assert children in DirectNeeds(id, spec);
    assert InheritedNeeds(store, id) == {};
  }

  /** What an undisturbed pass recomputes is whether all references resolve. */
  lemma RecomputedIsResolves(store: Store, id: Id)
    requires id in store
    ensures Recomputed(store, id) <==> Resolves(store, id)
  {
    hide Answers, PageFits, NavsAnswer, OptionAnswers, NavNeeds, OptionNeeds, Target;
    match store[id].spec {
      case PageSpec(_, _, _, _, _, _, _) => PageResolves(store, id);
      case HostSpec(_, _, _, _, _, _) => HostResolves(store, id);
      case PackagedSpec(package) =>
        if package.Some? {
          assert PackageNeed(id, package.value) in DirectNeeds(id, store[id].spec);
        }
      case StyledSpec(lib) => OptionAnswersHold(store, id, lib);
      case ArchetypeSpec(footer, header, navs, lib) =>
        OptionAnswersHold(store, id, footer);
        OptionAnswersHold(store, id, header);
        NavsAnswerHold(store, id, navs);
        OptionAnswersHold(store, id, lib);
      case _ =>
    }
  }

  function Resolve(store: Store, referrer: Id, ref: Option<Ref>): (r: Resolution)
    ensures r.Found? <==> ref.Some? && Answers(store, referrer, ref.value)
    ensures r.Unready? <==> ref.Some? && Present(store, referrer, ref.value) && !Answers(store, referrer, ref.value)
    ensures r.Faulty? <==> ref.Some? && !Sensible(referrer, ref.value)
    ensures r.Found? || r.Unready? ==> r.id == Named(referrer, ref.value)
    ensures r.Nothing? <==> ref.None?
    ensures r.Found? <==> ref.Some? && Holds(store, referrer, RefNeed(referrer, ref.value))
    ensures r.Found? || r.Unready? ==> r.id in store && Target(referrer, ref.value) == Some(r.id)
    ensures r.Missing? ==> Target(referrer, ref.value).Some? && Target(referrer, ref.value).value !in store
    ensures r.Faulty? <==> ref.Some? && Target(referrer, ref.value).None?
  {
    if ref.None? then Nothing
    else
      match Target(referrer, ref.value)
      case None => Faulty
      case Some(id) => if id !in store then Missing else if store[id].status.ready then Found(id) else Unready(id)
  }

  /** The objects that the non-nil references of a navigation map resolve to. */
  function NavTargets(referrer: Id, navs: Navs): map<string, Id> {
    map name | name in navs && navs[name].Some? && Target(referrer, navs[name].value).Some?
      :: Target(referrer, navs[name].value).value
  }

  /** Whatever order the loop takes, it stops exactly when some navigation does not resolve, and
      otherwise returns the same map, keyed by exactly the non-nil references. */
  method ResolvePageNavigations(store: Store, referrer: Id, navs: Navs) returns (r: Option<map<string, Id>>)
    ensures r.Some? <==> forall n :: n in NavNeeds(referrer, navs) ==> Holds(store, referrer, n)
    ensures r.Some? ==> r.value == NavTargets(referrer, navs)
    ensures r.Some? ==> r.value.Keys == set name | name in navs && navs[name].Some?
    ensures r.Some? ==> forall name :: name in r.value ==> r.value[name] in store
  {
    var navigations: map<string, Id> := map[];
    var left := navs.Keys;
    while left != {}
      invariant left <= navs.Keys
      invariant forall name :: name in navigations <==> name in navs && name !in left && navs[name].Some?
      invariant forall name :: name in navigations ==>
        && Target(referrer, navs[name].value) == Some(navigations[name])
        && Holds(store, referrer, RefNeed(referrer, navs[name].value)) && navigations[name] in store
      decreases left
    {
      var name :| name in left;
      var resolution := Resolve(store, referrer, navs[name]);
      if resolution.Stops() {
        assert RefNeed(referrer, navs[name].value) in NavNeeds(referrer, navs);
        return None;
      }
      if resolution.Found? {
        navigations := navigations[name := resolution.id];
      }
      left := left - {name};
    }
    return Some(navigations);
  }

  /** A resolved content entry: raw markup, or the app that fills the slot. */
  datatype Resolved = Raw | Filled(app: Id)

  /** The entry at `i` is the last one that names its slot. */
  predicate IsLast(contents: seq<Content>, i: nat)
    requires i < |contents|
  {
    forall j :: i < j < |contents| ==> contents[j].slot != contents[i].slot
  }

  predicate Fills(store: Store, referrer: Id, c: Content, r: Resolved) {
    match c
    case RawContent(_) => r.Raw?
    case AppContent(_, app) => r.Filled? && Target(referrer, app) == Some(r.app) && r.app in store
  }

  /** Each slot that is named holds the last entry that names it. */
  ghost predicate SlotsOf(store: Store, referrer: Id, contents: seq<Content>, slots: map<string, Resolved>) {
    && (forall slot :: slot in slots ==> exists c :: c in contents && c.slot == slot)
    && forall i :: 0 <= i < |contents| && IsLast(contents, i) ==>
         contents[i].slot in slots && Fills(store, referrer, contents[i], slots[contents[i].slot])
  }

  lemma OneSlotMore(store: Store, referrer: Id, contents: seq<Content>, slots: map<string, Resolved>,
                    c: Content, r: Resolved)
    requires SlotsOf(store, referrer, contents, slots) && Fills(store, referrer, c, r)
    ensures SlotsOf(store, referrer, contents + [c], slots[c.slot := r])
  {
    hide Fills, IsLast;
    var more, slots' := contents + [c], slots[c.slot := r];
    forall slot | slot in slots' ensures exists d :: d in more && d.slot == slot {
      if slot == c.slot {
        assert c in more;
      } else {
        var d :| d in contents && d.slot == slot;
        assert d in more;
      }
    }
    forall i | 0 <= i < |more| && IsLast(more, i)
      ensures more[i].slot in slots' && Fills(store, referrer, more[i], slots'[more[i].slot])
    {
      if i < |contents| {
        LastBefore(contents, c, i);
      }
    }
  }

  lemma LastBefore(contents: seq<Content>, c: Content, i: nat)
    requires i < |contents| && IsLast(contents + [c], i)
    ensures IsLast(contents, i) && contents[i].slot != c.slot
  {
    var more := contents + [c];
    assert more[|contents|] == c;
    forall j | i < j < |contents| ensures contents[j].slot != contents[i].slot {
      assert more[j].slot != more[i].slot;
    }
  }

  /** `ResolveContents` stops exactly when some app does not resolve. */
  method ResolveContents(store: Store, referrer: Id, contents: seq<Content>) returns (r: Option<map<string, Resolved>>)
    ensures r.Some? <==> forall n :: n in ContentNeeds(referrer, contents) ==> Holds(store, referrer, n)
    ensures r.Some? ==> SlotsOf(store, referrer, contents, r.value)
  {
    hide SlotsOf, IsLast;
    var slots: map<string, Resolved> := map[];
    NoSlots(store, referrer);
    for i := 0 to |contents|
      invariant SlotsOf(store, referrer, contents[..i], slots)
      invariant forall n :: n in ContentNeeds(referrer, contents[..i]) ==> Holds(store, referrer, n)
    {
      var c := contents[i];
      assert contents[..i + 1] == contents[..i] + [c];
      if c.RawContent? {
        OneSlotMore(store, referrer, contents[..i], slots, c, Raw);
        slots := slots[c.slot := Raw];
        continue;
      }
      var resolution := Resolve(store, referrer, Some(c.app));
      if resolution.Stops() {
        assert RefNeed(referrer, c.app) in ContentNeeds(referrer, contents);
        return None;
      }
      OneSlotMore(store, referrer, contents[..i], slots, c, Filled(resolution.id));
      slots := slots[c.slot := Filled(resolution.id)];
    }
    assert contents[..|contents|] == contents;
    return Some(slots);
  }

  lemma NoSlots(store: Store, referrer: Id)
    ensures SlotsOf(store, referrer, [], map[])
  {
  }

  // ---------- the navigation map that a page passes on ----------

  /** A Go map is a reference; a nil map is `null`. */
  class NavTable {
    var entries: Navs

    constructor (entries: Navs)
      ensures this.entries == entries
    {
      this.entries := entries;
    }
  }

  ghost function Entries(t: NavTable?): Navs
    reads t
  {
    if t == null then map[] else t.entries
  }

  /** Clone and copy: the result lets the page's own navigations win and is a new map, so the
      archetype's map is what it was. */
  method EffectiveNavs(inherited: NavTable?, own: NavTable?) returns (r: NavTable?)
    ensures r == null <==> inherited == null && Entries(own) == map[]
    ensures r != null ==> fresh(r)
    ensures Entries(r) == Entries(inherited) + Entries(own)
    ensures Entries(inherited) == old(Entries(inherited)) && Entries(own) == old(Entries(own))
  {
    r := null;
    if inherited != null {
      r := new NavTable(inherited.entries);
    }
    if own != null && |own.entries| > 0 {
      if r == null {
        r := new NavTable(map[]);
      }
      r.entries := r.entries + own.entries;
    }
  }
}
