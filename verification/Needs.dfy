/** What a reconcile pass needs of other objects, and in which order it reads them.

    A `Need` is one lookup with the test its result must pass. `Plan` and `PagePlan` list the
    lookups of a pass in the order of the controller's code, one per kind. */
module Needs {
  import opened Options
  import opened Objects

  const DEFAULT_TRANSLATION := "kdex-default-translation"
  const DEFAULT_PAGES := {"kdex-default-utility-page-announcement",
                          "kdex-default-utility-page-error",
                          "kdex-default-utility-page-login"}

  datatype Mode =
    | MustBeReady
    | SecretAccepted(accepted: set<int>)
    | PackageAccepted(verdict: bool)
    | PageReady(pageType: PageType)
    | DefaultPage(pageType: PageType)
    | MayExist
    | ChildrenUp

  datatype Need = Need(target: Option<Id>, mode: Mode)

  /** A lookup, the status attribute it feeds, and whether the attributes gathered since the
      last commit are written to the status after it. */
  datatype Entry = Entry(need: Need, attr: Option<string>, commit: bool)

  // ---------- needs that come from the object's own spec ----------

  function RefNeed(id: Id, ref: Ref): Need {
    Need(Target(id, ref), MustBeReady)
  }

  function OptionNeeds(id: Id, ref: Option<Ref>): set<Need> {
    if ref.None? then {} else {RefNeed(id, ref.value)}
  }

  function NavNeeds(id: Id, navs: Navs): set<Need> {
    set name | name in navs && navs[name].Some? :: RefNeed(id, navs[name].value)
  }

  function ContentNeeds(id: Id, contents: seq<Content>): set<Need> {
    set c | c in contents && c.AppContent? :: RefNeed(id, c.app)
  }

  function PageNeed(id: Id, ref: Ref, pageType: PageType): Need {
    Need(Target(id, ref), if ref.name in DEFAULT_PAGES then DefaultPage(pageType) else PageReady(pageType))
  }

  function PageNeeds(id: Id, ref: Option<Ref>, pageType: PageType): set<Need> {
    if ref.None? then {} else {PageNeed(id, ref.value, pageType)}
  }

  function DefaultTranslationNeed(): Need {
    Need(Some(Id(Kind(Translation, true), "", DEFAULT_TRANSLATION)), MayExist)
  }

  function PackageNeed(id: Id, package: Package): Need {
    match package.secret
    case None => Need(None, PackageAccepted(package.acceptedWithout))
    case Some(name) => Need(Some(Id(Kind(Secret, false), id.ns, name)), SecretAccepted(package.accepted))
  }

  /** The needs that an object's own spec states. */
  function DirectNeeds(id: Id, spec: Spec): set<Need> {
    match spec
    case SecretSpec(_) => {}
    case PackagedSpec(package) => if package.None? then {} else {PackageNeed(id, package.value)}
    case TranslationSpec => {}
    case StyledSpec(lib) => OptionNeeds(id, lib)
    case ArchetypeSpec(footer, header, navs, lib) =>
      OptionNeeds(id, footer) + OptionNeeds(id, header) + NavNeeds(id, navs) + OptionNeeds(id, lib)
    case PageSpec(_, archetype, contents, header, footer, navs, lib) =>
      {RefNeed(id, archetype)} + ContentNeeds(id, contents) + OptionNeeds(id, header) +
      OptionNeeds(id, footer) + NavNeeds(id, navs) + OptionNeeds(id, lib)
    case HostSpec(announcement, error, login, theme, lib, translations) =>
      PageNeeds(id, announcement, Announcement) + PageNeeds(id, error, Error) +
      PageNeeds(id, login, Login) + OptionNeeds(id, theme) + OptionNeeds(id, lib) +
      (set r | r in translations :: RefNeed(id, r)) +
      {DefaultTranslationNeed(), Need(None, ChildrenUp)}
  }

  /** The navigations a utility page takes over from its archetype: those it does not override. */
  function InheritedNavs(inherited: Navs, own: Navs): Navs {
    map name | name in inherited && name !in own :: inherited[name]
  }

  /** The objects whose events re-queue `id`: those its registered reference paths lead to. */
  function Watched(id: Id, spec: Spec): set<Id> {
    set n | n in DirectNeeds(id, spec) && n.target.Some? && n.mode != MayExist :: n.target.value
  }

  // ---------- the lookups of a pass in order ----------

  /** Attributes of a group of lookups are written only when the whole group succeeded. */
  function Sealed(group: seq<Entry>): seq<Entry> {
    if group == [] then [] else group[..|group| - 1] + [group[|group| - 1].(commit := true)]
  }

  function OptionEntries(id: Id, ref: Option<Ref>, attr: string): seq<Entry> {
    if ref.None? then [] else [Entry(RefNeed(id, ref.value), Some(attr), true)]
  }

  function NavAttr(name: string): string {
    name + ".navigation.generation"
  }

  function NavGroup(id: Id, navs: Navs, names: seq<string>): seq<Entry> {
    if names == [] then []
    else
      (if names[0] in navs && navs[names[0]].Some?
       then [Entry(RefNeed(id, navs[names[0]].value), Some(NavAttr(names[0])), false)]
       else []) + NavGroup(id, navs, names[1..])
  }

  function ContentGroup(id: Id, contents: seq<Content>): seq<Entry> {
    if contents == [] then []
    else
      var c, rest := contents[0], contents[1..];
      (if c.AppContent?
       then [Entry(RefNeed(id, c.app),
                   if exists d :: d in rest && d.slot == c.slot then None
                   else Some(c.slot + ".content.generation"),
                   false)]
       else []) + ContentGroup(id, rest)
  }

  function PageEntries(id: Id, ref: Option<Ref>, pageType: PageType, attr: string): seq<Entry> {
    if ref.None? then [] else [Entry(PageNeed(id, ref.value, pageType), Some(attr), true)]
  }

  function TranslationEntries(id: Id, refs: seq<Ref>): seq<Entry> {
    if refs == [] then []
    else [Entry(RefNeed(id, refs[0]), Some(refs[0].name + ".translation.generation"), true)]
         + TranslationEntries(id, refs[1..])
  }

  /** The lookups a pass knows from its own spec. A utility page knows only its archetype at
      first. `names` is the order in which Go iterates over the navigation map. */
  function Plan(id: Id, spec: Spec, names: seq<string>): seq<Entry> {
    match spec
    case SecretSpec(_) => []
    case PackagedSpec(package) =>
      if package.None? then []
      else [Entry(PackageNeed(id, package.value), Some("secret.generation"), true)]
    case TranslationSpec => []
    case StyledSpec(lib) => OptionEntries(id, lib, "scriptLibrary.generation")
    case ArchetypeSpec(footer, header, navs, lib) =>
      OptionEntries(id, footer, "footer.generation") + OptionEntries(id, header, "header.generation")
      + Sealed(NavGroup(id, navs, names)) + OptionEntries(id, lib, "scriptLibrary.generation")
    case PageSpec(_, archetype, _, _, _, _, _) =>
      [Entry(RefNeed(id, archetype), Some("archetype.generation"), true)]
    case HostSpec(announcement, error, login, theme, lib, translations) =>
      PageEntries(id, announcement, Announcement, "announcement.utilitypage.generation")
      + PageEntries(id, error, Error, "error.utilitypage.generation")
      + PageEntries(id, login, Login, "login.utilitypage.generation")
      + OptionEntries(id, theme, "theme.generation")
      + OptionEntries(id, lib, "scriptLibrary.generation")
      + TranslationEntries(id, translations)
      + [Entry(DefaultTranslationNeed(), Some(DEFAULT_TRANSLATION + ".translation.generation"), true),
         Entry(Need(None, ChildrenUp), None, true)]
  }

  /** The lookups of a utility page after its archetype, whose navigations it overrides. */
  function PagePlan(id: Id, spec: Spec, inherited: Navs, names: seq<string>): seq<Entry>
    requires spec.PageSpec?
  {
    Sealed(ContentGroup(id, spec.contents))
    + OptionEntries(id, spec.header, "header.generation")
    + OptionEntries(id, spec.footer, "footer.generation")
    + Sealed(NavGroup(id, inherited + spec.navs, names))
    + OptionEntries(id, spec.scriptLibrary, "scriptLibrary.generation")
  }

  /** Some order in which a Go loop may visit the keys of a map. */
  ghost predicate Visits(names: seq<string>, keys: set<string>) {
    && (forall name :: name in keys <==> name in names)
    && (forall i, j :: 0 <= i < j < |names| ==> names[i] != names[j])
  }

  function NavsOf(spec: Spec): Navs {
    match spec
    case ArchetypeSpec(_, _, navs, _) => navs
    case _ => map[]
  }

  function NeedsOf(entries: seq<Entry>): set<Need> {
    set e | e in entries :: e.need
  }

  // ---------- the plans read exactly the needs ----------

  lemma SealedNeeds(group: seq<Entry>)
    ensures NeedsOf(Sealed(group)) == NeedsOf(group)
  {
    var s := Sealed(group);
    if group != [] {
      assert |s| == |group| && forall i :: 0 <= i < |s| ==> s[i].need == group[i].need;
      forall n ensures n in NeedsOf(s) <==> n in NeedsOf(group) {
        if n in NeedsOf(s) {
          var i :| 0 <= i < |s| && s[i].need == n;
          assert group[i] in group;
        }
        if n in NeedsOf(group) {
          var i :| 0 <= i < |group| && group[i].need == n;
          assert s[i] in s;
        }
      }
    }
  }

  lemma ConcatNeeds(a: seq<Entry>, b: seq<Entry>)
    ensures NeedsOf(a + b) == NeedsOf(a) + NeedsOf(b)
  {
  }

  lemma ConcatFive(a: seq<Entry>, b: seq<Entry>, c: seq<Entry>, d: seq<Entry>, e: seq<Entry>)
    ensures NeedsOf(a + b + c + d + e) == NeedsOf(a) + NeedsOf(b) + NeedsOf(c) + NeedsOf(d) + NeedsOf(e)
  {
    ConcatNeeds(a + b + c + d, e);
    ConcatNeeds(a + b + c, d);
    ConcatNeeds(a + b, c);
    ConcatNeeds(a, b);
  }

  lemma OptionEntriesNeeds(id: Id, ref: Option<Ref>, attr: string)
    ensures NeedsOf(OptionEntries(id, ref, attr)) == OptionNeeds(id, ref)
  {
  }

  lemma PageEntriesNeeds(id: Id, ref: Option<Ref>, pageType: PageType, attr: string)
    ensures NeedsOf(PageEntries(id, ref, pageType, attr)) == PageNeeds(id, ref, pageType)
  {
  }

  lemma {:induction false} NavGroupNeeds(id: Id, navs: Navs, names: seq<string>)
    ensures NeedsOf(NavGroup(id, navs, names))
         == set name | name in names && name in navs && navs[name].Some? :: RefNeed(id, navs[name].value)
  {
    if names != [] {
      var rest := names[1..];
      NavGroupNeeds(id, navs, rest);
      assert forall name :: name in names <==> name == names[0] || name in rest;
      var head := NavGroup(id, navs, names)[..|NavGroup(id, navs, names)| - |NavGroup(id, navs, rest)|];
      assert NavGroup(id, navs, names) == head + NavGroup(id, navs, rest);
      ConcatNeeds(head, NavGroup(id, navs, rest));
    }
  }

  lemma {:induction false} ContentGroupNeeds(id: Id, contents: seq<Content>)
    ensures NeedsOf(ContentGroup(id, contents)) == ContentNeeds(id, contents)
  {
    if contents != [] {
      var rest := contents[1..];
      ContentGroupNeeds(id, rest);
      assert forall c :: c in contents <==> c == contents[0] || c in rest;
      var head := ContentGroup(id, contents)[..|ContentGroup(id, contents)| - |ContentGroup(id, rest)|];
      assert ContentGroup(id, contents) == head + ContentGroup(id, rest);
      ConcatNeeds(head, ContentGroup(id, rest));
    }
  }

  lemma {:induction false} TranslationEntriesNeeds(id: Id, refs: seq<Ref>)
    ensures NeedsOf(TranslationEntries(id, refs)) == set r | r in refs :: RefNeed(id, r)
  {
    if refs != [] {
      TranslationEntriesNeeds(id, refs[1..]);
      assert forall r :: r in refs <==> r == refs[0] || r in refs[1..];
      ConcatNeeds([TranslationEntries(id, refs)[0]], TranslationEntries(id, refs[1..]));
    }
  }

  lemma NavsVisited(id: Id, navs: Navs, names: seq<string>)
    requires Visits(names, navs.Keys)
    ensures NeedsOf(Sealed(NavGroup(id, navs, names))) == NavNeeds(id, navs)
  {
    SealedNeeds(NavGroup(id, navs, names));
    NavGroupNeeds(id, navs, names);
  }

  lemma ArchetypePlanReads(id: Id, spec: Spec, names: seq<string>)
    requires spec.ArchetypeSpec? && Visits(names, spec.navs.Keys)
    ensures NeedsOf(Plan(id, spec, names)) == DirectNeeds(id, spec)
  {
    var a := OptionEntries(id, spec.footer, "footer.generation");
    var b := OptionEntries(id, spec.header, "header.generation");
    var c := Sealed(NavGroup(id, spec.navs, names));
    var d := OptionEntries(id, spec.scriptLibrary, "scriptLibrary.generation");
    ConcatFive(a, b, c, d, []);
    assert Plan(id, spec, names) == a + b + c + d + [];
    OptionEntriesNeeds(id, spec.footer, "footer.generation");
    OptionEntriesNeeds(id, spec.header, "header.generation");
    NavsVisited(id, spec.navs, names);
    OptionEntriesNeeds(id, spec.scriptLibrary, "scriptLibrary.generation");
  }

  lemma HostPlanReads(id: Id, spec: Spec, names: seq<string>)
    requires spec.HostSpec?
    ensures NeedsOf(Plan(id, spec, names)) == DirectNeeds(id, spec)
  {
    var a := PageEntries(id, spec.announcement, Announcement, "announcement.utilitypage.generation");
    var b := PageEntries(id, spec.error, Error, "error.utilitypage.generation");
    var c := PageEntries(id, spec.login, Login, "login.utilitypage.generation");
    var d := OptionEntries(id, spec.theme, "theme.generation");
    var e := OptionEntries(id, spec.scriptLibrary, "scriptLibrary.generation");
    var f := TranslationEntries(id, spec.translations);
    var g := [Entry(DefaultTranslationNeed(), Some(DEFAULT_TRANSLATION + ".translation.generation"), true),
              Entry(Need(None, ChildrenUp), None, true)];
    PageEntriesNeeds(id, spec.announcement, Announcement, "announcement.utilitypage.generation");
    PageEntriesNeeds(id, spec.error, Error, "error.utilitypage.generation");
    PageEntriesNeeds(id, spec.login, Login, "login.utilitypage.generation");
    OptionEntriesNeeds(id, spec.theme, "theme.generation");
    OptionEntriesNeeds(id, spec.scriptLibrary, "scriptLibrary.generation");
    TranslationEntriesNeeds(id, spec.translations);
    assert NeedsOf(g) == {DefaultTranslationNeed(), Need(None, ChildrenUp)} by {
      assert g[0] in g && g[1] in g;
    }
    ConcatFive(a, b, c, d, e);
    ConcatNeeds(a + b + c + d + e, f);
    ConcatNeeds(a + b + c + d + e + f, g);
  }

  /** For every kind but the utility page, a pass reads exactly the needs of its spec. */
  lemma PlanReadsDirectNeeds(id: Id, spec: Spec, names: seq<string>)
    requires Visits(names, NavsOf(spec).Keys)
    ensures spec.PageSpec? ==> NeedsOf(Plan(id, spec, names)) == {RefNeed(id, spec.archetype)}
    ensures !spec.PageSpec? ==> NeedsOf(Plan(id, spec, names)) == DirectNeeds(id, spec)
  {
    match spec {
      case ArchetypeSpec(_, _, _, _) => ArchetypePlanReads(id, spec, names);
      case HostSpec(_, _, _, _, _, _) => HostPlanReads(id, spec, names);
      case StyledSpec(lib) => OptionEntriesNeeds(id, lib, "scriptLibrary.generation");
      case PackagedSpec(package) =>
        if package.Some? {
          assert Plan(id, spec, names)[0] in Plan(id, spec, names);
        }
      case PageSpec(_, _, _, _, _, _, _) =>
        assert Plan(id, spec, names)[0] in Plan(id, spec, names);
      case _ =>
    }
  }

  lemma MergedNeeds(id: Id, inherited: Navs, own: Navs)
    ensures NavNeeds(id, inherited + own) == NavNeeds(id, own) + NavNeeds(id, InheritedNavs(inherited, own))
  {
    var merged, left := inherited + own, InheritedNavs(inherited, own);
    forall name | name in merged && merged[name].Some?
      ensures RefNeed(id, merged[name].value) in NavNeeds(id, own) + NavNeeds(id, left)
    {
      if name in own { assert own[name] == merged[name]; } else { assert left[name] == merged[name]; }
    }
    forall name | name in own && own[name].Some?
      ensures RefNeed(id, own[name].value) in NavNeeds(id, merged)
    {
      assert merged[name] == own[name];
    }
    forall name | name in left && left[name].Some?
      ensures RefNeed(id, left[name].value) in NavNeeds(id, merged)
    {
      assert merged[name] == left[name];
    }
  }

  lemma PagePlanParts(id: Id, spec: Spec, merged: Navs, names: seq<string>)
    requires spec.PageSpec? && Visits(names, merged.Keys)
    ensures NeedsOf(Sealed(ContentGroup(id, spec.contents)) + OptionEntries(id, spec.header, "header.generation")
                    + OptionEntries(id, spec.footer, "footer.generation") + Sealed(NavGroup(id, merged, names))
                    + OptionEntries(id, spec.scriptLibrary, "scriptLibrary.generation"))
         == ContentNeeds(id, spec.contents) + OptionNeeds(id, spec.header) + OptionNeeds(id, spec.footer)
            + NavNeeds(id, merged) + OptionNeeds(id, spec.scriptLibrary)
  {
    hide NeedsOf, Sealed, ContentGroup, NavGroup, OptionEntries, ContentNeeds, OptionNeeds, NavNeeds;
    var a, b := Sealed(ContentGroup(id, spec.contents)), OptionEntries(id, spec.header, "header.generation");
    var c, d := OptionEntries(id, spec.footer, "footer.generation"), Sealed(NavGroup(id, merged, names));
    var e := OptionEntries(id, spec.scriptLibrary, "scriptLibrary.generation");
    NavsVisited(id, merged, names);
    SealedNeeds(ContentGroup(id, spec.contents));
    ContentGroupNeeds(id, spec.contents);
    OptionEntriesNeeds(id, spec.header, "header.generation");
    OptionEntriesNeeds(id, spec.footer, "footer.generation");
    OptionEntriesNeeds(id, spec.scriptLibrary, "scriptLibrary.generation");
    ConcatFive(a, b, c, d, e);
  }

  /** A utility page reads its archetype, its own references, and the inherited navigations. */
  lemma PagePlanReads(id: Id, spec: Spec, inherited: Navs, names: seq<string>)
    requires spec.PageSpec? && Visits(names, (inherited + spec.navs).Keys)
    ensures {RefNeed(id, spec.archetype)} + NeedsOf(PagePlan(id, spec, inherited, names))
         == DirectNeeds(id, spec) + NavNeeds(id, InheritedNavs(inherited, spec.navs))
  {
    hide NeedsOf, Sealed, ContentGroup, NavGroup, OptionEntries, ContentNeeds, OptionNeeds, NavNeeds, RefNeed, InheritedNavs;
    PagePlanParts(id, spec, inherited + spec.navs, names);
    MergedNeeds(id, inherited, spec.navs);
    UnionOfParts(RefNeed(id, spec.archetype), ContentNeeds(id, spec.contents), OptionNeeds(id, spec.header),
                 OptionNeeds(id, spec.footer), NavNeeds(id, spec.navs),
                 NavNeeds(id, InheritedNavs(inherited, spec.navs)), OptionNeeds(id, spec.scriptLibrary));
  }

  lemma UnionOfParts<T>(x: T, a: set<T>, b: set<T>, c: set<T>, own: set<T>, left: set<T>, e: set<T>)
    ensures {x} + (a + b + c + (own + left) + e) == {x} + a + b + c + own + e + left
  {
  }

  // ---------- references lead to lower levels ----------

  ghost predicate Below(id: Id, n: Need) {
    && (n.target.Some? ==> Level(n.target.value.kind.base) < Level(id.kind.base))
    && (n.mode.ChildrenUp? ==> n.target.None?)
  }

  lemma NavNeedsBelow(id: Id, owner: Id, navs: Navs)
    requires NavsFit(owner, navs) && Level(id.kind.base) > Level(PageNavigation)
    ensures forall n :: n in NavNeeds(id, navs) ==> Below(id, n) && n.mode == MustBeReady
  {
    forall n | n in NavNeeds(id, navs)
      ensures Below(id, n) && n.mode == MustBeReady
    {
      var name :| name in navs && navs[name].Some? && n == RefNeed(id, navs[name].value);
      assert OptionFits(owner, navs[name], PageNavigation);
    }
  }

  lemma OptionNeedsBelow(id: Id, ref: Option<Ref>, base: Base)
    requires OptionFits(id, ref, base) && Level(base) < Level(id.kind.base)
    ensures forall n :: n in OptionNeeds(id, ref) ==> Below(id, n)
  {
  }

  lemma PageNeedsBelow(id: Id, ref: Option<Ref>, pageType: PageType)
    requires OptionFits(id, ref, UtilityPage) && id.kind.base == Host
    ensures forall n :: n in PageNeeds(id, ref, pageType) ==> Below(id, n)
  {
  }

  lemma RefSetBelow(id: Id, refs: set<Ref>, base: Base)
    requires forall r :: r in refs ==> Fits(id, r, base)
    requires Level(base) < Level(id.kind.base)
    ensures forall n :: n in (set r | r in refs :: RefNeed(id, r)) ==> Below(id, n)
  {
  }

  lemma UtilityPageNeedsBelow(id: Id, spec: Spec, n: Need)
    requires WellFormed(id, spec) && spec.PageSpec? && n in DirectNeeds(id, spec)
    ensures Below(id, n)
  {
    hide NavNeeds, OptionNeeds, Below, Fits;
    NavNeedsBelow(id, id, spec.navs);
    OptionNeedsBelow(id, spec.header, PageHeader);
    OptionNeedsBelow(id, spec.footer, PageFooter);
    OptionNeedsBelow(id, spec.scriptLibrary, ScriptLibrary);
    RefSetBelow(id, {spec.archetype}, PageArchetype);
    var apps := set c | c in spec.contents && c.AppContent? :: c.app;
    RefSetBelow(id, apps, App);
    if n in ContentNeeds(id, spec.contents) {
      var c :| c in spec.contents && c.AppContent? && n == RefNeed(id, c.app);
      assert c.app in apps;
    }
  }

  lemma FixedNeedsBelow(id: Id)
    requires id.kind.base == Host
    ensures Below(id, DefaultTranslationNeed()) && Below(id, Need(None, ChildrenUp))
  {
  }

  lemma HostNeedsBelow(id: Id, spec: Spec, n: Need)
    requires WellFormed(id, spec) && spec.HostSpec? && n in DirectNeeds(id, spec)
    ensures Below(id, n)
  {
    hide PageNeeds, OptionNeeds, Below, Fits, RefNeed, DefaultTranslationNeed;
    FixedNeedsBelow(id);
    PageNeedsBelow(id, spec.announcement, Announcement);
    PageNeedsBelow(id, spec.error, Error);
    PageNeedsBelow(id, spec.login, Login);
    OptionNeedsBelow(id, spec.theme, Theme);
    OptionNeedsBelow(id, spec.scriptLibrary, ScriptLibrary);
    RefSetBelow(id, (set r | r in spec.translations), Translation);
    if n in (set r | r in spec.translations :: RefNeed(id, r)) {
      var r :| r in spec.translations && n == RefNeed(id, r);
      assert r in (set r | r in spec.translations);
    }
  }

  /** References lead to a strictly lower level, so the graph of references is acyclic. */
  lemma DirectNeedsBelow(id: Id, spec: Spec, n: Need)
    requires WellFormed(id, spec) && n in DirectNeeds(id, spec)
    ensures Below(id, n)
  {
    match spec {
      case ArchetypeSpec(footer, header, navs, lib) =>
        NavNeedsBelow(id, id, navs);
        OptionNeedsBelow(id, footer, PageFooter);
        OptionNeedsBelow(id, header, PageHeader);
        OptionNeedsBelow(id, lib, ScriptLibrary);
      case PageSpec(_, _, _, _, _, _, _) => UtilityPageNeedsBelow(id, spec, n);
      case HostSpec(_, _, _, _, _, _) => HostNeedsBelow(id, spec, n);
      case StyledSpec(lib) => OptionNeedsBelow(id, lib, ScriptLibrary);
      case _ =>
    }
  }
}
