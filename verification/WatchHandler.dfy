/** The reverse lookup that turns a changed object into reconcile requests, and its agreement
    with the forward lookup of the resolver. */
module WatchHandler {
  import opened Options
  import opened Objects
  import opened Needs
  import opened Readiness

  /** The reference paths that the controllers register. */
  datatype Path =
    | SecretRef | ScriptLibraryRef | ThemeRef | TranslationRefs
    | AnnouncementRef | ErrorRef | LoginRef
    | PageArchetypeRef | ContentApps
    | DefaultFooterRef | DefaultHeaderRef | DefaultNavigationRefs
    | OverrideFooterRef | OverrideHeaderRef | OverrideNavigationRefs

  /** What a path leads to: a reference to a custom resource or to a local object, or a nil or
      zero value. */
  datatype RefValue = ObjectRef(ref: Ref) | LocalRef(name: string) | NilRef

  datatype Item = Item(id: Id, spec: Spec)

  function Values(ref: Option<Ref>): set<RefValue> {
    {if ref.Some? then ObjectRef(ref.value) else NilRef}
  }

  function NavValues(navs: Navs): set<RefValue> {
    set name | name in navs :: if navs[name].Some? then ObjectRef(navs[name].value) else NilRef
  }

  /** The values that a path leads to in a spec; none when the path does not fit the spec. */
  function ValuesAt(spec: Spec, path: Path): set<RefValue> {
    match (spec, path)
    case (PackagedSpec(package), SecretRef) =>
      if package.Some? && package.value.secret.Some? then {LocalRef(package.value.secret.value)} else {NilRef}
    case (StyledSpec(lib), ScriptLibraryRef) => Values(lib)
    case (ArchetypeSpec(footer, _, _, _), DefaultFooterRef) => Values(footer)
    case (ArchetypeSpec(_, header, _, _), DefaultHeaderRef) => Values(header)
    case (ArchetypeSpec(_, _, navs, _), DefaultNavigationRefs) => NavValues(navs)
    case (ArchetypeSpec(_, _, _, lib), ScriptLibraryRef) => Values(lib)
    case (PageSpec(_, archetype, _, _, _, _, _), PageArchetypeRef) => {ObjectRef(archetype)}
    case (PageSpec(_, _, contents, _, _, _, _), ContentApps) =>
      set c | c in contents :: if c.AppContent? then ObjectRef(c.app) else NilRef
    case (PageSpec(_, _, _, header, _, _, _), OverrideHeaderRef) => Values(header)
    case (PageSpec(_, _, _, _, footer, _, _), OverrideFooterRef) => Values(footer)
    case (PageSpec(_, _, _, _, _, navs, _), OverrideNavigationRefs) => NavValues(navs)
    case (PageSpec(_, _, _, _, _, _, lib), ScriptLibraryRef) => Values(lib)
    case (HostSpec(announcement, _, _, _, _, _), AnnouncementRef) => Values(announcement)
    case (HostSpec(_, error, _, _, _, _), ErrorRef) => Values(error)
    case (HostSpec(_, _, login, _, _, _), LoginRef) => Values(login)
    case (HostSpec(_, _, _, theme, _, _), ThemeRef) => Values(theme)
    case (HostSpec(_, _, _, _, lib, _), ScriptLibraryRef) => Values(lib)
    case (HostSpec(_, _, _, _, _, translations), TranslationRefs) => set r | r in translations :: ObjectRef(r)
    case _ => {}
  }

  /** The paths registered by the controller of `watcher` for events of `changed`. Cluster-scoped
      watchers register for cluster-scoped kinds and for secrets. */
  function RegisteredPaths(watcher: Kind, changed: Kind): seq<Path> {
    if watcher.clustered && !changed.clustered && changed.base != Secret then []
    else
      match (watcher.base, changed.base)
      case (ScriptLibrary, Secret) => [SecretRef]
      case (App, Secret) => [SecretRef]
      case (Theme, ScriptLibrary) => [ScriptLibraryRef]
      case (PageHeader, ScriptLibrary) => [ScriptLibraryRef]
      case (PageFooter, ScriptLibrary) => [ScriptLibraryRef]
      case (PageNavigation, ScriptLibrary) => [ScriptLibraryRef]
      case (PageArchetype, PageFooter) => [DefaultFooterRef]
      case (PageArchetype, PageHeader) => [DefaultHeaderRef]
      case (PageArchetype, PageNavigation) => [DefaultNavigationRefs]
      case (PageArchetype, ScriptLibrary) => [ScriptLibraryRef]
      case (UtilityPage, App) => [ContentApps]
      case (UtilityPage, PageArchetype) => [PageArchetypeRef]
      case (UtilityPage, PageFooter) => [OverrideFooterRef]
      case (UtilityPage, PageHeader) => [OverrideHeaderRef]
      case (UtilityPage, PageNavigation) => [OverrideNavigationRefs]
      case (UtilityPage, ScriptLibrary) => [ScriptLibraryRef]
      case (Host, ScriptLibrary) => [ScriptLibraryRef]
      case (Host, Theme) => [ThemeRef]
      case (Host, Translation) => [TranslationRefs]
      case (Host, UtilityPage) => [AnnouncementRef, ErrorRef, LoginRef]
      case _ => []
  }

  // ---------- the handler ----------

  /** What the path evaluator returns: an error, or one list of values per template node. */
  type Results = Option<seq<seq<RefValue>>>

  predicate Matches(item: Item, changed: Id, value: RefValue) {
    match value
    case NilRef => false
    case LocalRef(name) => name == changed.name
    case ObjectRef(ref) =>
      var namespace := if ref.ns != "" then ref.ns else item.id.ns;
      ref.kind == Known(changed.kind) && ref.name == changed.name && item.id.ns == namespace
  }

  function ValueRequests(item: Item, changed: Id, values: seq<RefValue>): seq<Id> {
    if values == [] then []
    else ValueRequests(item, changed, values[..|values| - 1])
         + if Matches(item, changed, values[|values| - 1]) then [item.id] else []
  }

  function NodeRequests(item: Item, changed: Id, nodes: seq<seq<RefValue>>): seq<Id> {
    if nodes == [] then []
    else NodeRequests(item, changed, nodes[..|nodes| - 1]) + ValueRequests(item, changed, nodes[|nodes| - 1])
  }

  /** A path whose first node is empty is skipped. */
  function ResultRequests(item: Item, changed: Id, results: Results): seq<Id> {
    if results.None? || results.value == [] || results.value[0] == [] then []
    else NodeRequests(item, changed, results.value)
  }

  function PathRequests(item: Item, changed: Id, paths: seq<Path>, find: (Item, Path) -> Results): seq<Id> {
    if paths == [] then []
    else PathRequests(item, changed, paths[..|paths| - 1], find)
         + ResultRequests(item, changed, find(item, paths[|paths| - 1]))
  }

  function Requests(items: seq<Item>, changed: Id, paths: seq<Path>, find: (Item, Path) -> Results): seq<Id> {
    if items == [] then []
    else Requests(items[..|items| - 1], changed, paths, find)
         + PathRequests(items[|items| - 1], changed, paths, find)
  }

  lemma Prefixes<T>(s: seq<T>)
    ensures s[..0] == [] && s[..|s|] == s
    ensures forall i :: 0 <= i < |s| ==> s[..i + 1][..i] == s[..i]
  {
  }

  lemma PathStep(item: Item, changed: Id, paths: seq<Path>, find: (Item, Path) -> Results, j: nat)
    requires j < |paths|
    ensures PathRequests(item, changed, paths[..j + 1], find)
         == PathRequests(item, changed, paths[..j], find) + ResultRequests(item, changed, find(item, paths[j]))
  {
    hide ResultRequests;
    assert paths[..j + 1][..j] == paths[..j];
  }

  lemma ItemStep(items: seq<Item>, changed: Id, paths: seq<Path>, find: (Item, Path) -> Results, i: nat)
    requires i < |items|
    ensures Requests(items[..i + 1], changed, paths, find)
         == Requests(items[..i], changed, paths, find) + PathRequests(items[i], changed, paths, find)
  {
    hide PathRequests;
    assert items[..i + 1][..i] == items[..i];
  }

  /** The four nested loops of the handler: items, paths, nodes and values. */
  method MapToRequests(items: seq<Item>, changed: Id, paths: seq<Path>, find: (Item, Path) -> Results)
    returns (requests: seq<Id>)
    ensures requests == Requests(items, changed, paths, find)
  {
    hide NodeRequests;
    requests := [];
    for i := 0 to |items|
      invariant requests == Requests(items[..i], changed, paths, find)
    {
      ItemStep(items, changed, paths, find, i);
      requests := AppendPaths(items[i], changed, paths, find, requests);
    }
    Prefixes(items);
  }

  method AppendPaths(item: Item, changed: Id, paths: seq<Path>, find: (Item, Path) -> Results, before: seq<Id>)
    returns (requests: seq<Id>)
    ensures requests == before + PathRequests(item, changed, paths, find)
  {
    hide NodeRequests;
    requests := before;
    for j := 0 to |paths|
      invariant requests == before + PathRequests(item, changed, paths[..j], find)
    {
      PathStep(item, changed, paths, find, j);
      var results := find(item, paths[j]);
      if results.Some? && results.value != [] && results.value[0] != [] {
        requests := AppendMatches(item, changed, results.value, requests);
      }
    }
    Prefixes(paths);
  }

  /** The two inner loops, over the nodes that the path evaluator found and their values. */
  method AppendMatches(item: Item, changed: Id, nodes: seq<seq<RefValue>>, before: seq<Id>)
    returns (requests: seq<Id>)
    ensures requests == before + NodeRequests(item, changed, nodes)
  {
    hide Matches;
    requests := before;
    Prefixes(nodes);
    for k := 0 to |nodes|
      invariant requests == before + NodeRequests(item, changed, nodes[..k])
    {
      ghost var sofar := requests;
      var values := nodes[k];
      Prefixes(values);
      for l := 0 to |values|
        invariant requests == sofar + ValueRequests(item, changed, values[..l])
      {
        if Matches(item, changed, values[l]) {
          requests := requests + [item.id];
        }
      }
    }
  }

  // ---------- membership ----------

  /** A path of the form `{...}` has one template node, whose values, but for nil ones, are those of
      the spec. The evaluator may as well find nothing, or fail, where all values are nil. */
  ghost predicate Finds(find: (Item, Path) -> Results) {
    forall item, path :: FindsAt(find(item, path), ValuesAt(item.spec, path))
  }

  ghost predicate FindsAt(results: Results, values: set<RefValue>) {
    if results.None? || results.value == [] then forall v :: v in values ==> v == NilRef
    else |results.value| == 1 && forall v :: v != NilRef ==> (v in results.value[0] <==> v in values)
  }

  ghost function Listing(values: set<RefValue>): (r: seq<RefValue>)
    ensures forall v :: v in r <==> v in values
  {
    if values == {} then []
    else
      var v :| v in values;
      [v] + Listing(values - {v})
  }

  /** The evaluator as it behaves: a field behind a nil pointer, here the pages of a host that
      configures none and the secret of an absent package, is an error; a path that ends in a nil
      pointer finds that pointer; a wildcard over nothing finds an empty node. */
  ghost function Evaluate(item: Item, path: Path): Results {
    match (item.spec, path)
    case (PackagedSpec(None), SecretRef) => None
    case (HostSpec(None, None, None, _, _, _), AnnouncementRef) => None
    case (HostSpec(None, None, None, _, _, _), ErrorRef) => None
    case (HostSpec(None, None, None, _, _, _), LoginRef) => None
    case _ =>
      Some([Listing(ValuesAt(item.spec, path))])
  }

  /** What is proved of evaluators applies to that one. */
  lemma EvaluateFinds()
    ensures Finds(Evaluate)
    ensures forall item: Item :: item.spec == PackagedSpec(Some(Package(None, {}, true))) ==>
              Evaluate(item, SecretRef).Some? && NilRef in Evaluate(item, SecretRef).value[0]
  {
    forall item, path ensures FindsAt(Evaluate(item, path), ValuesAt(item.spec, path)) {
      hide ValuesAt;
      EvaluateNils(item.spec, path);
    }
  }

  lemma EvaluateNils(spec: Spec, path: Path)
    ensures match (spec, path)
            case (PackagedSpec(None), SecretRef) => ValuesAt(spec, path) == {NilRef}
            case (HostSpec(None, None, None, _, _, _), AnnouncementRef) => ValuesAt(spec, path) == {NilRef}
            case (HostSpec(None, None, None, _, _, _), ErrorRef) => ValuesAt(spec, path) == {NilRef}
            case (HostSpec(None, None, None, _, _, _), LoginRef) => ValuesAt(spec, path) == {NilRef}
            case _ => true
  {
  }

  lemma {:induction false} ValueRequested(item: Item, changed: Id, values: seq<RefValue>, r: Id)
    ensures r in ValueRequests(item, changed, values) <==>
      r == item.id && exists v :: v in values && Matches(item, changed, v)
  {
    if values != [] {
      ValueRequested(item, changed, values[..|values| - 1], r);
      var last := values[|values| - 1];
      assert forall v :: v in values <==> v in values[..|values| - 1] || v == last;
    }
  }

  lemma ResultRequested(item: Item, changed: Id, results: Results, values: set<RefValue>, r: Id)
    requires FindsAt(results, values)
    ensures r in ResultRequests(item, changed, results) <==>
      r == item.id && exists v :: v in values && Matches(item, changed, v)
  {
    if results.Some? && results.value != [] {
      ValueRequested(item, changed, results.value[0], r);
      assert results.value[..0] == [] && results.value == [results.value[0]];
      assert NodeRequests(item, changed, results.value) == [] + ValueRequests(item, changed, results.value[0]);
    }
  }

  lemma {:induction false} PathRequested(item: Item, changed: Id, paths: seq<Path>, find: (Item, Path) -> Results, r: Id)
    requires Finds(find)
    ensures r in PathRequests(item, changed, paths, find) <==>
      r == item.id && exists p, v :: p in paths && v in ValuesAt(item.spec, p) && Matches(item, changed, v)
  {
    if paths != [] {
      var last := paths[|paths| - 1];
      PathRequested(item, changed, paths[..|paths| - 1], find, r);
      assert FindsAt(find(item, last), ValuesAt(item.spec, last));
      ResultRequested(item, changed, find(item, last), ValuesAt(item.spec, last), r);
      assert forall p :: p in paths <==> p in paths[..|paths| - 1] || p == last;
    }
  }

  lemma {:induction false} Requested(items: seq<Item>, changed: Id, paths: seq<Path>, find: (Item, Path) -> Results, r: Id)
    requires Finds(find)
    ensures r in Requests(items, changed, paths, find) <==>
      exists item, p, v :: item in items && item.id == r && p in paths
        && v in ValuesAt(item.spec, p) && Matches(item, changed, v)
  {
    if items != [] {
      var last := items[|items| - 1];
      Requested(items[..|items| - 1], changed, paths, find, r);
      PathRequested(last, changed, paths, find, r);
      assert forall item :: item in items <==> item in items[..|items| - 1] || item == last;
    }
  }

  // ---------- the handler inverts the resolver ----------

  /** The object that a reference value resolves to. */
  function Resolved(referrer: Id, value: RefValue): Option<Id> {
    match value
    case NilRef => None
    case LocalRef(name) => Some(Id(Kind(Secret, false), referrer.ns, name))
    case ObjectRef(ref) => Target(referrer, ref)
  }

  predicate Scoped(id: Id) {
    id.kind.clustered <==> id.ns == ""
  }

  /** The namespace restriction of the handler's list call. */
  predicate Listed(referrer: Id, changed: Id) {
    changed.ns == "" || referrer.ns == changed.ns
  }

  /** For a listed referrer the handler's test is the resolver's answer, but for one thing: the
      handler ignores a reference whose namespace is given and is not the referrer's own, also
      where the resolver ignores that namespace. */
  lemma MatchIsResolution(item: Item, changed: Id, value: RefValue)
    requires Scoped(item.id) && Scoped(changed) && Listed(item.id, changed)
    requires item.id.kind.clustered ==> changed.kind.clustered
    requires value.LocalRef? ==> changed.kind == Kind(Secret, false)
    ensures Matches(item, changed, value) <==>
      && Resolved(item.id, value) == Some(changed)
      && (value.ObjectRef? ==> value.ref.ns == "" || value.ref.ns == item.id.ns)
  {
  }

  /** A referrer that the list call leaves out has no reference within its own namespace that
      resolves to the changed object. */
  lemma UnlistedNeverResolve(referrer: Id, changed: Id, value: RefValue)
    requires Scoped(referrer) && Scoped(changed) && !Listed(referrer, changed)
    requires value.ObjectRef? ==> value.ref.ns == "" || value.ref.ns == referrer.ns
    ensures Resolved(referrer, value) != Some(changed)
  {
  }

  /** What the list call returns for one watcher kind, in any order. */
  ghost predicate Lists(items: seq<Item>, store: Store, watcher: Kind, changed: Id) {
    forall item :: item in items <==>
      && item.id in store && item.spec == store[item.id].spec
      && item.id.kind == watcher && Listed(item.id, changed)
  }

  lemma LocalOnlyForSecrets(watcher: Kind, changed: Id, spec: Spec, p: Path, v: RefValue)
    requires p in RegisteredPaths(watcher, changed.kind) && v in ValuesAt(spec, p) && v.LocalRef?
    ensures changed.kind.base == Secret
  {
    assert p == SecretRef;
  }

  /** One of the references of `r` at the registered paths resolves to exactly `changed` and does
      not name a foreign namespace. */
  ghost predicate Refers(r: Id, spec: Spec, changed: Id) {
    exists p, v :: RefersBy(r, spec, changed, p, v)
  }

  predicate RefersBy(r: Id, spec: Spec, changed: Id, p: Path, v: RefValue) {
    && p in RegisteredPaths(r.kind, changed.kind) && v in ValuesAt(spec, p)
    && Resolved(r, v) == Some(changed)
    && (v.ObjectRef? ==> v.ref.ns == "" || v.ref.ns == r.ns)
  }

  lemma RequestedRefers(item: Item, watcher: Kind, changed: Id, p: Path, v: RefValue)
    requires Scoped(item.id) && Scoped(changed) && Listed(item.id, changed) && item.id.kind == watcher
    requires watcher.clustered ==> changed.kind.clustered
    requires changed.kind.base == Secret ==> !changed.kind.clustered
    requires p in RegisteredPaths(watcher, changed.kind) && v in ValuesAt(item.spec, p)
    ensures Matches(item, changed, v) <==> RefersBy(item.id, item.spec, changed, p, v)
  {
    if v.LocalRef? {
      LocalOnlyForSecrets(watcher, changed, item.spec, p, v);
    }
    hide ValuesAt, RegisteredPaths;
    MatchIsResolution(item, changed, v);
  }

  /** The handler is the exact inverse of the resolver: over any store and for any changed
      object, cluster-scoped or namespaced, a referrer of the watched kind is requested if and
      only if one of its references at the registered paths resolves to exactly that object. */
  lemma HandlerInvertsResolver(items: seq<Item>, store: Store, watcher: Kind, changed: Id,
                               find: (Item, Path) -> Results, r: Id)
    requires Finds(find) && Lists(items, store, watcher, changed) && Scoped(changed)
    requires forall x :: x in store ==> Scoped(x)
    requires watcher.clustered ==> changed.kind.clustered
    requires changed.kind.base == Secret ==> !changed.kind.clustered
    ensures r in Requests(items, changed, RegisteredPaths(watcher, changed.kind), find) <==>
      r in store && r.kind == watcher && Refers(r, store[r].spec, changed)
  {
    hide ValuesAt, RegisteredPaths, Matches, Resolved, PathRequests, Requests, Finds;
    var paths := RegisteredPaths(watcher, changed.kind);
    Requested(items, changed, paths, find, r);
    if r in Requests(items, changed, paths, find) {
      var item, p, v :| item in items && item.id == r && p in paths
        && v in ValuesAt(item.spec, p) && Matches(item, changed, v);
      RequestedRefers(item, watcher, changed, p, v);
      assert RefersBy(r, store[r].spec, changed, p, v);
    }
    if r in store && r.kind == watcher && Refers(r, store[r].spec, changed) {
      var item := Item(r, store[r].spec);
      var p, v :| RefersBy(r, store[r].spec, changed, p, v);
      if Listed(r, changed) {
        assert item in items;
        RequestedRefers(item, watcher, changed, p, v);
      } else {
        UnlistedNeverResolve(r, changed, v);
      }
    }
  }

  // ---------- the registrations are complete ----------

  lemma RefRegistered(r: Id, spec: Spec, changed: Id, ref: Ref, base: Base, p: Path)
    requires Fits(r, ref, base) && Target(r, ref) == Some(changed) && base != Secret
    requires p in RegisteredPaths(Kind(r.kind.base, false), Kind(base, false))
    requires ObjectRef(ref) in ValuesAt(spec, p)
    ensures Refers(r, spec, changed)
  {
    hide ValuesAt;
    assert RegisteredPaths(r.kind, changed.kind) == RegisteredPaths(Kind(r.kind.base, false), Kind(base, false));
    assert RefersBy(r, spec, changed, p, ObjectRef(ref));
  }

  lemma OptionRegistered(r: Id, spec: Spec, changed: Id, ref: Option<Ref>, base: Base, p: Path, n: Need)
    requires ref.Some? && Fits(r, ref.value, base) && base != Secret
    requires n.target == Target(r, ref.value) == Some(changed)
    requires p in RegisteredPaths(Kind(r.kind.base, false), Kind(base, false))
    requires ObjectRef(ref.value) in ValuesAt(spec, p)
    ensures Refers(r, spec, changed)
  {
    RefRegistered(r, spec, changed, ref.value, base, p);
  }

  lemma NavRegistered(r: Id, spec: Spec, changed: Id, navs: Navs, p: Path, n: Need)
    requires NavsFit(r, navs) && n in NavNeeds(r, navs) && n.target == Some(changed)
    requires p in RegisteredPaths(Kind(r.kind.base, false), Kind(PageNavigation, false))
    requires ValuesAt(spec, p) == NavValues(navs)
    ensures Refers(r, spec, changed)
  {
    hide ValuesAt, RegisteredPaths, Refers;
    var name :| name in navs && navs[name].Some? && n == RefNeed(r, navs[name].value);
    assert OptionFits(r, navs[name], PageNavigation);
    assert ObjectRef(navs[name].value) in NavValues(navs);
    RefRegistered(r, spec, changed, navs[name].value, PageNavigation, p);
  }

  lemma ArchetypeRegistered(r: Id, spec: Spec, changed: Id, n: Need)
    requires WellFormed(r, spec) && spec.ArchetypeSpec? && n in DirectNeeds(r, spec) && n.target == Some(changed)
    ensures Refers(r, spec, changed)
  {
    hide Refers, NavNeeds, NavsFit, Target, Fits;
    if n in OptionNeeds(r, spec.footer) {
      OptionRegistered(r, spec, changed, spec.footer, PageFooter, DefaultFooterRef, n);
    } else if n in OptionNeeds(r, spec.header) {
      OptionRegistered(r, spec, changed, spec.header, PageHeader, DefaultHeaderRef, n);
    } else if n in OptionNeeds(r, spec.scriptLibrary) {
      OptionRegistered(r, spec, changed, spec.scriptLibrary, ScriptLibrary, ScriptLibraryRef, n);
    } else {
      NavRegistered(r, spec, changed, spec.navs, DefaultNavigationRefs, n);
    }
  }

  lemma PageOwnRegistered(r: Id, spec: Spec, changed: Id, n: Need)
    requires WellFormed(r, spec) && spec.PageSpec? && n.target == Some(changed)
    requires n == RefNeed(r, spec.archetype) || n in ContentNeeds(r, spec.contents)
    ensures Refers(r, spec, changed)
  {
    hide Refers, NavNeeds, NavsFit, Target, Fits, DirectNeeds, Resolved;
    if n == RefNeed(r, spec.archetype) {
      RefRegistered(r, spec, changed, spec.archetype, PageArchetype, PageArchetypeRef);
    } else {
      var c :| c in spec.contents && c.AppContent? && n == RefNeed(r, c.app);
      RefRegistered(r, spec, changed, c.app, App, ContentApps);
    }
  }

  lemma PageRegistered(r: Id, spec: Spec, changed: Id, n: Need)
    requires WellFormed(r, spec) && spec.PageSpec? && n in DirectNeeds(r, spec) && n.target == Some(changed)
    ensures Refers(r, spec, changed)
  {
    hide Refers, NavNeeds, NavsFit, Target, Fits, ContentNeeds, Resolved;
    if n in OptionNeeds(r, spec.footer) {
      OptionRegistered(r, spec, changed, spec.footer, PageFooter, OverrideFooterRef, n);
    } else if n in OptionNeeds(r, spec.header) {
      OptionRegistered(r, spec, changed, spec.header, PageHeader, OverrideHeaderRef, n);
    } else if n in OptionNeeds(r, spec.scriptLibrary) {
      OptionRegistered(r, spec, changed, spec.scriptLibrary, ScriptLibrary, ScriptLibraryRef, n);
    } else if n in NavNeeds(r, spec.navs) {
      NavRegistered(r, spec, changed, spec.navs, OverrideNavigationRefs, n);
    } else {
      PageOwnRegistered(r, spec, changed, n);
    }
  }

  lemma HostPagesRegistered(r: Id, spec: Spec, changed: Id, n: Need)
    requires WellFormed(r, spec) && spec.HostSpec? && n.target == Some(changed)
    requires n in PageNeeds(r, spec.announcement, Announcement) + PageNeeds(r, spec.error, Error)
                  + PageNeeds(r, spec.login, Login)
    ensures Refers(r, spec, changed)
  {
    hide Refers, Target, Fits, DirectNeeds, Resolved;
    if n in PageNeeds(r, spec.announcement, Announcement) {
      OptionRegistered(r, spec, changed, spec.announcement, UtilityPage, AnnouncementRef, n);
    } else if n in PageNeeds(r, spec.error, Error) {
      OptionRegistered(r, spec, changed, spec.error, UtilityPage, ErrorRef, n);
    } else {
      OptionRegistered(r, spec, changed, spec.login, UtilityPage, LoginRef, n);
    }
  }

  lemma HostRegistered(r: Id, spec: Spec, changed: Id, n: Need)
    requires WellFormed(r, spec) && spec.HostSpec? && n in DirectNeeds(r, spec)
    requires n.target == Some(changed) && n.mode != MayExist
    ensures Refers(r, spec, changed)
  {
    hide Refers, Target, Fits, Resolved, PageNeeds;
    if n in PageNeeds(r, spec.announcement, Announcement) + PageNeeds(r, spec.error, Error)
            + PageNeeds(r, spec.login, Login) {
      HostPagesRegistered(r, spec, changed, n);
    } else if n in OptionNeeds(r, spec.theme) {
      OptionRegistered(r, spec, changed, spec.theme, Theme, ThemeRef, n);
    } else if n in OptionNeeds(r, spec.scriptLibrary) {
      OptionRegistered(r, spec, changed, spec.scriptLibrary, ScriptLibrary, ScriptLibraryRef, n);
    } else {
      var ref :| ref in spec.translations && n == RefNeed(r, ref);
      RefRegistered(r, spec, changed, ref, Translation, TranslationRefs);
    }
  }

  lemma PackageRegistered(r: Id, spec: Spec, changed: Id, n: Need)
    requires WellFormed(r, spec) && spec.PackagedSpec? && n in DirectNeeds(r, spec) && n.target == Some(changed)
    ensures Refers(r, spec, changed)
  {
    assert RefersBy(r, spec, changed, SecretRef, LocalRef(spec.package.value.secret.value));
  }

  lemma WatchedRefers(r: Id, spec: Spec, changed: Id)
    requires WellFormed(r, spec) && changed in Watched(r, spec)
    ensures Refers(r, spec, changed)
  {
    hide Refers, WellFormed, DirectNeeds;
    var n :| n in DirectNeeds(r, spec) && n.target == Some(changed) && n.mode != MayExist;
    match spec {
      case ArchetypeSpec(_, _, _, _) => ArchetypeRegistered(r, spec, changed, n);
      case PageSpec(_, _, _, _, _, _, _) => PageRegistered(r, spec, changed, n);
      case HostSpec(_, _, _, _, _, _) => HostRegistered(r, spec, changed, n);
      case PackagedSpec(_) => PackageRegistered(r, spec, changed, n);
      case StyledSpec(lib) => StyledRegistered(r, spec, changed, n);
      case _ => NoNeeds(r, spec);
    }
  }

  lemma NoNeeds(r: Id, spec: Spec)
    requires spec.SecretSpec? || spec.TranslationSpec?
    ensures DirectNeeds(r, spec) == {}
  {
  }

  lemma StyledRegistered(r: Id, spec: Spec, changed: Id, n: Need)
    requires WellFormed(r, spec) && spec.StyledSpec? && n in DirectNeeds(r, spec) && n.target == Some(changed)
    ensures Refers(r, spec, changed)
  {
    OptionRegistered(r, spec, changed, spec.scriptLibrary, ScriptLibrary, ScriptLibraryRef, n);
  }

  /** A reference at any registered path is one of the needs that the object states. */
  lemma ValueIsNeed(r: Id, spec: Spec, p: Path, v: RefValue) returns (n: Need)
    requires v in ValuesAt(spec, p) && v != NilRef
    ensures n in DirectNeeds(r, spec) && n.mode != MayExist && n.target == Resolved(r, v)
  {
    match v {
      case LocalRef(name) => n := PackageNeed(r, spec.package.value);
      case ObjectRef(ref) =>
        if p == AnnouncementRef {
          n := PageNeed(r, ref, Announcement);
        } else if p == ErrorRef {
          n := PageNeed(r, ref, Error);
        } else if p == LoginRef {
          n := PageNeed(r, ref, Login);
        } else {
          n := RefNeed(r, ref);
          PlainValue(r, spec, p, ref);
        }
    }
  }

  lemma PlainValue(r: Id, spec: Spec, p: Path, ref: Ref)
    requires ObjectRef(ref) in ValuesAt(spec, p) && p !in {AnnouncementRef, ErrorRef, LoginRef}
    ensures RefNeed(r, ref) in DirectNeeds(r, spec)
  {
    match p {
      case DefaultNavigationRefs =>
        assert RefNeed(r, ref) in NavNeeds(r, spec.navs);
      case OverrideNavigationRefs =>
        assert RefNeed(r, ref) in NavNeeds(r, spec.navs);
      case ContentApps =>
        assert RefNeed(r, ref) in ContentNeeds(r, spec.contents);
      case TranslationRefs =>
        assert RefNeed(r, ref) in (set t | t in spec.translations :: RefNeed(r, t));
      case _ =>
    }
  }

  /** All that the registrations of the controllers add up to is what the readiness graph calls
      watched: no reference of a well-formed object is left without a handler. */
  lemma RefersIsWatched(r: Id, spec: Spec, changed: Id)
    requires WellFormed(r, spec)
    ensures Refers(r, spec, changed) <==> changed in Watched(r, spec)
  {
    hide WellFormed, DirectNeeds, ValuesAt, RegisteredPaths, Resolved;
    if Refers(r, spec, changed) {
      var p, v :| RefersBy(r, spec, changed, p, v);
      NilResolvesNowhere(r);
      var n := ValueIsNeed(r, spec, p, v);
    }
    if changed in Watched(r, spec) {
      WatchedRefers(r, spec, changed);
    }
  }

  lemma NilResolvesNowhere(r: Id)
    ensures Resolved(r, NilRef) == None
  {
  }
}
