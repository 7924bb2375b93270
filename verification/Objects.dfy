/** The objects of the readiness graph: kinds, identities, references and specs.

    A spec keeps only what a controller reads from it. A reference field that Go
    represents by a possibly nil pointer is an `Option`. */
module Objects {
  import opened Options

  datatype Base =
    | Secret
    | ScriptLibrary | App | Translation
    | Theme | PageHeader | PageFooter | PageNavigation
    | PageArchetype
    | UtilityPage
    | Host

  /** `Kind(Theme, true)` is the Go kind `KDexClusterTheme`, `Kind(Theme, false)` is `KDexTheme`. */
  datatype Kind = Kind(base: Base, clustered: bool)

  /** A cluster-scoped object has the empty namespace. */
  datatype Id = Id(kind: Kind, ns: string, name: string)

  /** References lead from a higher level to a lower one. */
  function Level(base: Base): nat {
    match base
    case Secret => 0
    case ScriptLibrary | App | Translation => 1
    case Theme | PageHeader | PageFooter | PageNavigation => 2
    case PageArchetype => 3
    case UtilityPage => 4
    case Host => 5
  }

  /** The kind named by a reference is a string in Go; it may name no registered kind. */
  datatype RefKind = Known(kind: Kind) | Unknown(mentionsCluster: bool)
  {
    predicate MentionsCluster() {
      match this
      case Known(k) => k.clustered
      case Unknown(m) => m
    }
  }

  datatype Ref = Ref(kind: RefKind, name: string, ns: string)

  /** The object that `ResolveKDexObjectReference` looks up, or `None` when it returns an
      error before any lookup. */
  function Target(referrer: Id, ref: Ref): Option<Id> {
    if referrer.kind.clustered && !ref.kind.MentionsCluster() then None
    else if ref.kind.Unknown? then None
    else
      var k := ref.kind.kind;
      Some(Id(k,
              if referrer.kind.clustered || k.clustered then ""
              else if ref.ns != "" then ref.ns
              else referrer.ns,
              ref.name))
  }

  datatype PageType = Announcement | Error | Login

  /** A package reference. The registry's verdict is an oracle: the secret contents it
      accepts, and whether it accepts the package with no secret at all. */
  datatype Package = Package(secret: Option<string>, accepted: set<int>, acceptedWithout: bool)

  datatype Content = RawContent(slot: string) | AppContent(slot: string, app: Ref)

  type Navs = map<string, Option<Ref>>

  datatype Spec =
    | SecretSpec(content: int)
    | PackagedSpec(package: Option<Package>)
    | TranslationSpec
    | StyledSpec(scriptLibrary: Option<Ref>)
    | ArchetypeSpec(footer: Option<Ref>, header: Option<Ref>, navs: Navs, scriptLibrary: Option<Ref>)
    | PageSpec(pageType: PageType, archetype: Ref, contents: seq<Content>, header: Option<Ref>,
               footer: Option<Ref>, navs: Navs, scriptLibrary: Option<Ref>)
    | HostSpec(announcement: Option<Ref>, error: Option<Ref>, login: Option<Ref>,
               theme: Option<Ref>, scriptLibrary: Option<Ref>, translations: seq<Ref>)

  /** The reference names a kind of the expected base, and no other namespace than the referrer's. */
  predicate Fits(id: Id, ref: Ref, base: Base) {
    && ref.kind.Known? && ref.kind.kind.base == base
    && (ref.ns == "" || ref.ns == id.ns)
  }

  predicate OptionFits(id: Id, ref: Option<Ref>, base: Base) {
    ref.Some? ==> Fits(id, ref.value, base)
  }

  predicate NavsFit(id: Id, navs: Navs) {
    forall name :: name in navs ==> OptionFits(id, navs[name], PageNavigation)
  }

  /** What the schemas of the custom resources grant, with the stated restriction to references
      that stay in the referrer's namespace and to namespaced packages for secrets. */
  predicate WellFormed(id: Id, spec: Spec) {
    && (id.kind.clustered <==> id.ns == "")
    && match spec
       case SecretSpec(_) => id.kind == Kind(Secret, false)
       case PackagedSpec(package) =>
         && (id.kind.base == ScriptLibrary || id.kind.base == App)
         && (package.Some? && package.value.secret.Some? ==> !id.kind.clustered)
       case TranslationSpec => id.kind.base == Translation
       case StyledSpec(lib) =>
         && id.kind.base in {Theme, PageHeader, PageFooter, PageNavigation}
         && OptionFits(id, lib, ScriptLibrary)
       case ArchetypeSpec(footer, header, navs, lib) =>
         && id.kind.base == PageArchetype
         && OptionFits(id, footer, PageFooter) && OptionFits(id, header, PageHeader)
         && NavsFit(id, navs) && OptionFits(id, lib, ScriptLibrary)
       case PageSpec(_, archetype, contents, header, footer, navs, lib) =>
         && id.kind.base == UtilityPage
         && Fits(id, archetype, PageArchetype)
         && (forall c :: c in contents && c.AppContent? ==> Fits(id, c.app, App))
         && OptionFits(id, footer, PageFooter) && OptionFits(id, header, PageHeader)
         && NavsFit(id, navs) && OptionFits(id, lib, ScriptLibrary)
       case HostSpec(announcement, error, login, theme, lib, translations) =>
         && id.kind == Kind(Host, false)
         && OptionFits(id, announcement, UtilityPage) && OptionFits(id, error, UtilityPage)
         && OptionFits(id, login, UtilityPage)
         && OptionFits(id, theme, Theme) && OptionFits(id, lib, ScriptLibrary)
         && (forall r :: r in translations ==> Fits(id, r, Translation))
  }
}
