/** What a host pass writes into the objects it owns, and when a second pass writes nothing. */
module HostResources {
  import opened Options
  import opened HostProtocol
  import opened Names
  import opened Deployments
  import Flags

  type Labels = map<string, string>

  datatype Body =
    | ConfigBody(data: string)
    | AccountBody
    | BindingBody(role: string, subject: Key)
    | DeploymentBody(pod: PodValue)
    | ServiceBody(spec: string)
    | InternalHostBody(spec: string, announcement: Option<string>, error: Option<string>, login: Option<string>,
                       translations: seq<string>)
    | ContentBody(spec: string, hostRef: string)

  /** `generation` is the number in the label "kdex.dev/generation", which `labels` leaves out. */
  datatype Resource = Resource(labels: Labels, annotations: Labels, generation: Option<nat>, finalizers: set<string>,
                               owner: Option<nat>, body: Body)

  type Resources = map<Key, Resource>

  /** The host and the configured defaults as the pass reads them. */
  datatype HostView = HostView(key: Key, uid: nat, generation: nat, labels: Labels, annotations: Labels,
                               spec: string, settings: HostSettings)

  datatype Defaults = Defaults(config: string, pod: PodValue, service: string, role: string)

  /** One create-or-update of a pass, with what it takes from resolved references. */
  datatype Item =
    | PageItem(pageType: string, spec: string, generation: nat)
    | TranslationItem(name: string, spec: string, generation: nat)
    | ConfigItem
    | AccountItem
    | BindingItem
    | DeploymentItem
    | ServiceItem
    | InternalHostItem(announcement: Option<string>, error: Option<string>, login: Option<string>,
                       translations: seq<string>)

  const FINALIZER := "kdex.dev/kdex-nexus-host-finalizer"

  function KeyOf(h: Key, item: Item): Key {
    match item
    case PageItem(t, _, _) => Key(InternalPage, h.ns, Derived(h.name, t))
    case TranslationItem(name, _, _) => Key(InternalTranslation, h.ns, Derived(h.name, name))
    case ConfigItem => Own(h, ConfigMap)
    case AccountItem => Account(h)
    case BindingItem => Binding(h)
    case DeploymentItem => Own(h, Deployment)
    case ServiceItem => Own(h, Service)
    case InternalHostItem(_, _, _, _) => Own(h, InternalHost)
  }

  /** The object to create: labels and annotations of the host, and the configured template. */
  function Blank(h: HostView, d: Defaults, item: Item): Resource {
    var body := match item
      case PageItem(_, _, _) => ContentBody("", "")
      case TranslationItem(_, _, _) => ContentBody("", "")
      case ConfigItem => ConfigBody("")
      case AccountItem => AccountBody
      case BindingItem => BindingBody("", h.key)
      case DeploymentItem => DeploymentBody(d.pod)
      case ServiceItem => ServiceBody(d.service)
      case InternalHostItem(_, _, _, _) => InternalHostBody("", None, None, None, []);
    var labels := h.labels["app.kubernetes.io/name" := "kdex-host"]["kdex.dev/instance" := h.key.name];
    Resource(if item.PageItem? then labels["kdex.dev/utility-page-type" := item.pageType] else labels,
             h.annotations, None, {}, None, body)
  }

  /** The body has the form that the kind of the item calls for. */
  predicate Typed(item: Item, body: Body) {
    match item
    case PageItem(_, _, _) => body.ContentBody?
    case TranslationItem(_, _, _) => body.ContentBody?
    case ConfigItem => body.ConfigBody?
    case AccountItem => body.AccountBody?
    case BindingItem => body.BindingBody?
    case DeploymentItem => body.DeploymentBody?
    case ServiceItem => body.ServiceBody?
    case InternalHostItem(_, _, _, _) => body.InternalHostBody?
  }

  /** What the mutate function sets on every pass. */
  function SetBody(h: HostView, d: Defaults, item: Item, body: Body): Body
    requires Typed(item, body)
  {
    match item
    case PageItem(_, spec, _) => ContentBody(spec, h.key.name)
    case TranslationItem(_, spec, _) => ContentBody(spec, h.key.name)
    case ConfigItem => ConfigBody(d.config)
    case AccountItem => body
    case BindingItem => BindingBody(d.role, Account(h.key))
    case DeploymentItem => DeploymentBody(Deployments.Mutated(body.pod, h.settings))
    case ServiceItem => body
    case InternalHostItem(a, e, l, ts) => InternalHostBody(h.spec, a, e, l, ts)
  }

  function SetGeneration(h: HostView, item: Item, current: Option<nat>): Option<nat> {
    match item
    case PageItem(_, _, g) => Some(g)
    case TranslationItem(_, _, g) => Some(g)
    case InternalHostItem(_, _, _, _) => Some(h.generation)
    case _ => current
  }

  predicate Labelled(item: Item) {
    item.PageItem? || item.TranslationItem? || item.InternalHostItem?
  }

  /** The mutate function. It fails when another uid controls the object; writing the generation
      label into an object whose labels were all removed assigns to a nil map and aborts, and so does
      mounting a config volume that has no config map. */
  function Mutate(h: HostView, d: Defaults, item: Item, found: Option<Resource>): Option<Resource> {
    var r := if found.Some? then found.value else Blank(h, d, item);
    if !Typed(item, r.body) then None
    else if item.DeploymentItem? && !Mountable(r.body.pod.volumes) then None
    else if Labelled(item) && r.labels == map[] && r.generation.None? then None
    else if !item.BindingItem? && r.owner.Some? && r.owner != Some(h.uid) then None
    else
      Some(Resource(r.labels, r.annotations, SetGeneration(h, item, r.generation),
                    if item.AccountItem? || item.BindingItem? then r.finalizers + {FINALIZER} else r.finalizers,
                    if item.BindingItem? then r.owner else Some(h.uid),
                    SetBody(h, d, item, r.body)))
  }

  function Find(store: Resources, key: Key): Option<Resource> {
    if key in store then Some(store[key]) else None
  }

  /** The store after a pass, how many creates and updates it made, and whether it went through. */
  datatype Report = Report(store: Resources, writes: nat, ok: bool)

  function Ensured(store: Resources, h: HostView, d: Defaults, item: Item): Report {
    var key := KeyOf(h.key, item);
    match Mutate(h, d, item, Find(store, key))
    case None => Report(store, 0, false)
    case Some(r) => if Find(store, key) == Some(r) then Report(store, 0, true) else Report(store[key := r], 1, true)
  }

  /** The creates and updates of a pass, in order; the first failure ends it. */
  function PassOver(store: Resources, h: HostView, d: Defaults, items: seq<Item>): Report {
    if items == [] then Report(store, 0, true)
    else
      var r := PassOver(store, h, d, items[..|items| - 1]);
      if !r.ok then r
      else
        var e := Ensured(r.store, h, d, items[|items| - 1]);
        Report(e.store, r.writes + e.writes, e.ok)
  }

  class Cluster {
    var resources: Resources

    constructor (resources: Resources)
      ensures this.resources == resources
    {
      this.resources := resources;
    }

    /** Get, mutate, and write if anything changed; no write if the mutate function fails. */
    method CreateOrUpdate(h: HostView, d: Defaults, item: Item) returns (ok: bool, wrote: bool)
      modifies this
      ensures Ensured(old(resources), h, d, item) == Report(resources, if wrote then 1 else 0, ok)
      ensures wrote <==> resources != old(resources)
    {
      var key := KeyOf(h.key, item);
      var found := Find(resources, key);
      var mutated := Mutate(h, d, item, found);
      if mutated.None? {
        return false, false;
      }
      ok, wrote := true, mutated != found;
      if wrote {
        resources := resources[key := mutated.value];
      }
    }

    /** The creates and updates of a whole pass; the first failure ends it. */
    method CreateAll(h: HostView, d: Defaults, items: seq<Item>) returns (ok: bool, writes: nat)
      modifies this
      ensures PassOver(old(resources), h, d, items) == Report(resources, writes, ok)
    {
      hide Ensured;
      ok, writes := true, 0;
      for i := 0 to |items|
        invariant ok && PassOver(old(resources), h, d, items[..i]) == Report(resources, writes, true)
      {
        OneItemMore(old(resources), h, d, items, i);
        var wrote;
        ok, wrote := CreateOrUpdate(h, d, items[i]);
        writes := if wrote then writes + 1 else writes;
        if !ok {
          FailedEarly(old(resources), h, d, items, i + 1);
          return;
        }
      }
      assert items[..|items|] == items;
    }
  }

  lemma OneItemMore(store: Resources, h: HostView, d: Defaults, items: seq<Item>, i: nat)
    requires i < |items|
    ensures var r := PassOver(store, h, d, items[..i]);
      PassOver(store, h, d, items[..i + 1]) ==
        if !r.ok then r
        else var e := Ensured(r.store, h, d, items[i]); Report(e.store, r.writes + e.writes, e.ok)
  {
    hide Ensured;
    assert items[..i + 1][..i] == items[..i];
  }

  lemma {:induction false} FailedEarly(store: Resources, h: HostView, d: Defaults, items: seq<Item>, i: nat)
    requires i <= |items| && !PassOver(store, h, d, items[..i]).ok
    ensures PassOver(store, h, d, items) == PassOver(store, h, d, items[..i])
    decreases |items| - i
  {
    if i < |items| {
      OneItemMore(store, h, d, items, i);
      FailedEarly(store, h, d, items, i + 1);
    } else {
      assert items[..i] == items;
    }
  }

  /** A pass would leave the object of `item` as it is. */
  predicate Settled(store: Resources, h: HostView, d: Defaults, item: Item) {
    var found := Find(store, KeyOf(h.key, item));
    found.Some? && Mutate(h, d, item, found) == found
  }

  // ---------- when a second pass is silent ----------

  /** No two items of the pass write different contents into one object. */
  predicate NoClash(h: Key, items: seq<Item>) {
    forall i, j :: 0 <= i < |items| && 0 <= j < |items| && KeyOf(h, items[i]) == KeyOf(h, items[j])
      ==> items[i] == items[j]
  }

  /** The flags of the deployment that the pass starts from can be rewritten twice alike. */
  predicate FlagsStable(store: Resources, h: HostView, d: Defaults) {
    var found := Find(store, Own(h.key, Deployment));
    var pod := if found.Some? && found.value.body.DeploymentBody? then found.value.body.pod else d.pod;
    Flags.Stable(pod.args, pod.command, h.settings.name)
  }

  predicate KnownPages(items: seq<Item>) {
    forall item :: item in items && item.PageItem? ==> item.pageType in PAGE_TYPES
  }

  lemma EnsuredIsMutated(store: Resources, h: HostView, d: Defaults, item: Item)
    requires Ensured(store, h, d, item).ok
    ensures var key := KeyOf(h.key, item);
      Find(Ensured(store, h, d, item).store, key) == Mutate(h, d, item, Find(store, key))
    ensures forall k :: k != KeyOf(h.key, item) ==> Find(Ensured(store, h, d, item).store, k) == Find(store, k)
  {
    hide Mutate;
  }

  lemma MutatedVolumes(r: Resource, h: HostView)
    ensures r.body.DeploymentBody? ==>
      Deployments.Mutated(r.body.pod, h.settings).volumes == Mounted(r.body.pod.volumes, h.settings.name)
  {
  }

  /** Applying a mutate function to its own result changes nothing, but for the flags. */
  lemma MutateTwice(h: HostView, d: Defaults, item: Item, found: Option<Resource>)
    requires Mutate(h, d, item, found).Some?
    ensures var r := Mutate(h, d, item, found);
      Mutate(h, d, item, r) == r <==>
        item.DeploymentItem? ==>
          var pod := (if found.Some? then found.value else Blank(h, d, item)).body.pod;
          Flags.Stable(pod.args, pod.command, h.settings.name)
  {
    var r0 := if found.Some? then found.value else Blank(h, d, item);
    if item.DeploymentItem? {
      MutatedAgain(r0.body.pod, h.settings);
      MountedIsMountable(r0.body.pod.volumes, h.settings.name);
    }
    MutatedVolumes(r0, h);
    hide Deployments.Mutated, Flags.Stable;
    assert r0.finalizers + {FINALIZER} + {FINALIZER} == r0.finalizers + {FINALIZER};
  }

  /** Two items that both leave an object as it is, and name the same one, are the same item. */
  lemma SettledAlike(store: Resources, h: HostView, d: Defaults, a: Item, b: Item)
    requires Settled(store, h, d, a) && Settled(store, h, d, b) && KeyOf(h.key, a) == KeyOf(h.key, b)
    requires a.PageItem? ==> a.pageType in PAGE_TYPES
    requires b.PageItem? ==> b.pageType in PAGE_TYPES
    ensures a == b
  {
    if a.PageItem? && b.PageItem? {
      PageNamesInjective(h.key.name, a.pageType, h.key.name, b.pageType);
    }
    if a.TranslationItem? && b.TranslationItem? {
      TranslationNamesInjective(h.key.name, a.name, b.name);
    }
  }

  lemma {:induction false} SettledIsSilent(store: Resources, h: HostView, d: Defaults, items: seq<Item>)
    requires forall item :: item in items ==> Settled(store, h, d, item)
    ensures PassOver(store, h, d, items) == Report(store, 0, true)
  {
    if items != [] {
      hide Mutate, KeyOf;
      var init, last := items[..|items| - 1], items[|items| - 1];
      assert last in items;
      SettledIsSilent(store, h, d, init);
    }
  }

  lemma {:induction false} SilentIsSettled(store: Resources, h: HostView, d: Defaults, items: seq<Item>)
    requires PassOver(store, h, d, items).ok && PassOver(store, h, d, items).writes == 0
    ensures PassOver(store, h, d, items).store == store
    ensures forall item :: item in items ==> Settled(store, h, d, item)
  {
    if items != [] {
      hide Mutate, KeyOf;
      var init, last := items[..|items| - 1], items[|items| - 1];
      SilentIsSettled(store, h, d, init);
      assert forall item :: item in items <==> item in init || item == last;
    }
  }

  /** The object that the last item for `key` found before it wrote. */
  lemma {:induction false} PassSettles(store: Resources, h: HostView, d: Defaults, items: seq<Item>, item: Item)
    requires PassOver(store, h, d, items).ok && item in items && NoClash(h.key, items)
    requires item.DeploymentItem? ==> FlagsStable(store, h, d)
    ensures Settled(PassOver(store, h, d, items).store, h, d, item)
  {
    var init, last := items[..|items| - 1], items[|items| - 1];
    var mid := PassOver(store, h, d, init).store;
    NoClashInit(h.key, items);
    EnsuredIsMutated(mid, h, d, last);
    var key := KeyOf(h.key, last);
    if item in init {
      PassSettles(store, h, d, init, item);
      if KeyOf(h.key, item) == key {
        SameKeySameItem(h.key, items, item);
      }
    } else {
      UntouchedBefore(store, h, d, init, item, items);
      MutateTwice(h, d, item, Find(store, key));
      hide Flags.Stable;
    }
  }

  lemma NoClashInit(h: Key, items: seq<Item>)
    requires items != [] && NoClash(h, items)
    ensures NoClash(h, items[..|items| - 1])
  {
  }

  lemma SameKeySameItem(h: Key, items: seq<Item>, item: Item)
    requires NoClash(h, items) && item in items && KeyOf(h, item) == KeyOf(h, items[|items| - 1])
    ensures item == items[|items| - 1]
  {
    var i :| 0 <= i < |items| && items[i] == item;
  }

  /** Items that come before the first one for an object leave that object alone. */
  lemma {:induction false} UntouchedBefore(store: Resources, h: HostView, d: Defaults, init: seq<Item>, item: Item,
                                           items: seq<Item>)
    requires NoClash(h.key, items) && item !in init && init <= items && item in items
    requires PassOver(store, h, d, init).ok
    ensures Find(PassOver(store, h, d, init).store, KeyOf(h.key, item)) == Find(store, KeyOf(h.key, item))
  {
    if init != [] {
      hide Mutate;
      var k := |init| - 1;
      UntouchedBefore(store, h, d, init[..k], item, items);
      assert init[k] == items[k];
      var i :| 0 <= i < |items| && items[i] == item;
      assert KeyOf(h.key, init[k]) != KeyOf(h.key, item);
    }
  }

  /** In a pass that settles its deployment, the flags were stable to begin with. */
  lemma {:induction false} SettledFlags(store: Resources, h: HostView, d: Defaults, items: seq<Item>, i: nat)
    requires PassOver(store, h, d, items).ok && NoClash(h.key, items)
    requires OnlyDeployment(items, i)
    requires Settled(PassOver(store, h, d, items).store, h, d, DeploymentItem)
    ensures FlagsStable(store, h, d)
  {
    hide Flags.Stable, Mutate;
    var init, last := items[..|items| - 1], items[|items| - 1];
    var mid := PassOver(store, h, d, init).store;
    NoClashInit(h.key, items);
    EnsuredIsMutated(mid, h, d, last);
    var key := KeyOf(h.key, DeploymentItem);
    if i == |items| - 1 {
      assert forall j :: 0 <= j < |init| ==> init[j] == items[j];
      UntouchedBefore(store, h, d, init, DeploymentItem, items);
      MutateTwice(h, d, DeploymentItem, Find(store, key));
      BlankDeployment(h, d);
      if Find(store, key).Some? {
        MutatedDeployment(h, d, Find(store, key));
      }
    } else {
      assert forall j :: 0 <= j < |init| ==> init[j] == items[j];
      assert KeyOf(h.key, items[i]) != KeyOf(h.key, last);
      SettledFlags(store, h, d, init, i);
    }
  }

  /** The deployment is created or updated once, as the item at `i`. */
  predicate OnlyDeployment(items: seq<Item>, i: int) {
    0 <= i < |items| && forall j :: 0 <= j < |items| ==> (items[j] == DeploymentItem <==> j == i)
  }

  lemma BlankDeployment(h: HostView, d: Defaults)
    ensures Blank(h, d, DeploymentItem).body == DeploymentBody(d.pod)
  {
  }

  lemma MutatedDeployment(h: HostView, d: Defaults, found: Option<Resource>)
    requires Mutate(h, d, DeploymentItem, found).Some? && found.Some?
    ensures found.value.body.DeploymentBody?
  {
  }

  /** Steady-state silence: after a pass that went through, a second pass over the same host and
      references makes no create and no update if and only if no two of its items disagree about
      one object and the flags of the deployment were stable. */
  lemma SecondPassIsSilent(store: Resources, h: HostView, d: Defaults, items: seq<Item>)
    requires PassOver(store, h, d, items).ok && KnownPages(items)
    requires exists i :: OnlyDeployment(items, i)
    ensures var first := PassOver(store, h, d, items);
      var second := PassOver(first.store, h, d, items);
      (second.ok && second.writes == 0 <==> NoClash(h.key, items) && FlagsStable(store, h, d))
      && (second.ok && second.writes == 0 ==> second.store == first.store)
  {
    hide Mutate, Flags.Stable, KeyOf;
    var first := PassOver(store, h, d, items);
    var second := PassOver(first.store, h, d, items);
    if NoClash(h.key, items) && FlagsStable(store, h, d) {
      forall item | item in items ensures Settled(first.store, h, d, item) {
        PassSettles(store, h, d, items, item);
      }
      SettledIsSilent(first.store, h, d, items);
    }
    if second.ok && second.writes == 0 {
      SilentIsSettled(first.store, h, d, items);
      forall i, j | 0 <= i < |items| && 0 <= j < |items| && KeyOf(h.key, items[i]) == KeyOf(h.key, items[j])
        ensures items[i] == items[j]
      {
        assert items[i] in items && items[j] in items;
        SettledAlike(first.store, h, d, items[i], items[j]);
      }
      var i :| OnlyDeployment(items, i);
      assert items[i] in items;
      SettledFlags(store, h, d, items, i);
    }
  }

  // ---------- the items of a host pass ----------

  /** A resolved reference: the name, content and generation of its source. */
  datatype Source = Source(name: string, spec: string, generation: nat)

  function PageItems(pageType: string, source: Option<Source>): seq<Item> {
    if source.None? then [] else [PageItem(pageType, source.value.spec, source.value.generation)]
  }

  function TranslationItems(sources: seq<Source>): seq<Item> {
    seq(|sources|, i requires 0 <= i < |sources| =>
      TranslationItem(sources[i].name, sources[i].spec, sources[i].generation))
  }

  function PageName(h: Key, pageType: string, source: Option<Source>): Option<string> {
    if source.None? then None else Some(Derived(h.name, pageType))
  }

  function TranslationNames(h: Key, sources: seq<Source>): seq<string> {
    seq(|sources|, i requires 0 <= i < |sources| => Derived(h.name, sources[i].name))
  }

  /** All creates and updates of a host pass in the order of the code. */
  function HostItems(h: Key, announcement: Option<Source>, error: Option<Source>, login: Option<Source>,
                     translations: seq<Source>): seq<Item> {
    PageItems("announcement", announcement) + PageItems("error", error) + PageItems("login", login)
    + TranslationItems(translations)
    + [ConfigItem, AccountItem, BindingItem, DeploymentItem, ServiceItem,
       InternalHostItem(PageName(h, "announcement", announcement), PageName(h, "error", error),
                        PageName(h, "login", login), TranslationNames(h, translations))]
  }

  /** Resolved translations of one name come from one source at one generation. */
  predicate Unambiguous(translations: seq<Source>) {
    forall i, j :: 0 <= i < |translations| && 0 <= j < |translations| && translations[i].name == translations[j].name
      ==> translations[i] == translations[j]
  }

  lemma MembersOf(h: Key, announcement: Option<Source>, error: Option<Source>, login: Option<Source>,
                  translations: seq<Source>, item: Item)
    ensures item in HostItems(h, announcement, error, login, translations) <==>
      || item in PageItems("announcement", announcement) || item in PageItems("error", error)
      || item in PageItems("login", login) || item in TranslationItems(translations)
      || item in [ConfigItem, AccountItem, BindingItem, DeploymentItem, ServiceItem]
      || item == InternalHostItem(PageName(h, "announcement", announcement), PageName(h, "error", error),
                                  PageName(h, "login", login), TranslationNames(h, translations))
  {
  }

  lemma HostItemsClash(h: Key, announcement: Option<Source>, error: Option<Source>, login: Option<Source>,
                       translations: seq<Source>)
    ensures NoClash(h, HostItems(h, announcement, error, login, translations)) <==> Unambiguous(translations)
    ensures KnownPages(HostItems(h, announcement, error, login, translations))
  {
    hide HostItems;
    var items, ts := HostItems(h, announcement, error, login, translations), TranslationItems(translations);
    forall item | item in items && item.PageItem? ensures item.pageType in PAGE_TYPES {
      MembersOf(h, announcement, error, login, translations, item);
    }
    if NoClash(h, items) {
      forall i, j | 0 <= i < |translations| && 0 <= j < |translations| && translations[i].name == translations[j].name
        ensures translations[i] == translations[j]
      {
        assert ts[i] in ts && ts[j] in ts;
        MembersOf(h, announcement, error, login, translations, ts[i]);
        MembersOf(h, announcement, error, login, translations, ts[j]);
        var k :| 0 <= k < |items| && items[k] == ts[i];
        var l :| 0 <= l < |items| && items[l] == ts[j];
        assert KeyOf(h, items[k]) == KeyOf(h, items[l]);
      }
    }
    if Unambiguous(translations) {
      forall i, j | 0 <= i < |items| && 0 <= j < |items| && KeyOf(h, items[i]) == KeyOf(h, items[j])
        ensures items[i] == items[j]
      {
        AlikeItems(h, announcement, error, login, translations, items[i], items[j]);
      }
    }
  }

  lemma AlikeItems(h: Key, announcement: Option<Source>, error: Option<Source>, login: Option<Source>,
                   translations: seq<Source>, a: Item, b: Item)
    requires Unambiguous(translations) && KeyOf(h, a) == KeyOf(h, b)
    requires a in HostItems(h, announcement, error, login, translations)
    requires b in HostItems(h, announcement, error, login, translations)
    ensures a == b
  {
    MembersOf(h, announcement, error, login, translations, a);
    MembersOf(h, announcement, error, login, translations, b);
    hide HostItems;
    if a.TranslationItem? {
      TranslationNamesInjective(h.name, a.name, b.name);
      var i :| 0 <= i < |translations| && TranslationItems(translations)[i] == a;
      var j :| 0 <= j < |translations| && TranslationItems(translations)[j] == b;
    } else if a.PageItem? {
      PageNamesInjective(h.name, a.pageType, h.name, b.pageType);
    }
  }

  lemma OneDeployment(h: Key, announcement: Option<Source>, error: Option<Source>, login: Option<Source>,
                      translations: seq<Source>)
    ensures exists i :: OnlyDeployment(HostItems(h, announcement, error, login, translations), i)
  {
    var front := PageItems("announcement", announcement) + PageItems("error", error) + PageItems("login", login)
      + TranslationItems(translations);
    assert DeploymentItem !in front;
    var back := [ConfigItem, AccountItem, BindingItem, DeploymentItem, ServiceItem,
                 InternalHostItem(PageName(h, "announcement", announcement), PageName(h, "error", error),
                                  PageName(h, "login", login), TranslationNames(h, translations))];
    assert forall j :: 0 <= j < |front| ==> front[j] in front;
    assert HostItems(h, announcement, error, login, translations) == front + back;
    assert OnlyDeployment(front + back, |front| + 3);
  }

  /** Steady-state silence of the host pass: after a pass that went through, a second one over the
      unchanged host and references makes no create and no update if and only if resolved
      translations of one name are one source and the deployment's flags were stable. */
  lemma HostPassIsSilent(store: Resources, h: HostView, d: Defaults, announcement: Option<Source>,
                         error: Option<Source>, login: Option<Source>, translations: seq<Source>)
    requires PassOver(store, h, d, HostItems(h.key, announcement, error, login, translations)).ok
    ensures var items := HostItems(h.key, announcement, error, login, translations);
      var second := PassOver(PassOver(store, h, d, items).store, h, d, items);
      second.ok && second.writes == 0 <==> Unambiguous(translations) && FlagsStable(store, h, d)
  {
    hide HostItems, PassOver, NoClash, Unambiguous;
    var items := HostItems(h.key, announcement, error, login, translations);
    HostItemsClash(h.key, announcement, error, login, translations);
    OneDeployment(h.key, announcement, error, login, translations);
    SecondPassIsSilent(store, h, d, items);
  }

  // ---------- a pass that never settles ----------

  predicate TypedKey(kind: Kind, body: Body) {
    match kind
    case ConfigMap => body.ConfigBody?
    case ServiceAccount => body.AccountBody?
    case RoleBinding => body.BindingBody?
    case Deployment => body.DeploymentBody?
    case Service => body.ServiceBody?
    case InternalHost => body.InternalHostBody?
    case InternalPage => body.ContentBody?
    case InternalTranslation => body.ContentBody?
    case Host => false
  }

  /** A pass over `h` that meets this object goes on. */
  predicate Welcome(h: HostView, kind: Kind, r: Resource) {
    && TypedKey(kind, r.body)
    && r.labels != map[]
    && (r.owner.Some? ==> r.owner == Some(h.uid))
    && (r.body.DeploymentBody? ==> Mountable(r.body.pod.volumes))
  }

  predicate Welcoming(h: HostView, store: Resources) {
    forall key :: key in store ==> Welcome(h, key.kind, store[key])
  }

  lemma BlankIsWelcome(h: HostView, d: Defaults, item: Item)
    requires Mountable(d.pod.volumes)
    ensures Welcome(h, KeyOf(h.key, item).kind, Blank(h, d, item))
  {
    hide Mountable;
    assert "kdex.dev/instance" in Blank(h, d, item).labels;
  }

  lemma MutateWelcome(h: HostView, d: Defaults, item: Item, found: Option<Resource>)
    requires Mountable(d.pod.volumes)
    requires found.Some? ==> Welcome(h, KeyOf(h.key, item).kind, found.value)
    ensures var r := Mutate(h, d, item, found); r.Some? && Welcome(h, KeyOf(h.key, item).kind, r.value)
  {
    hide Blank, Deployments.Mutated, Mountable;
    BlankIsWelcome(h, d, item);
    var r := if found.Some? then found.value else Blank(h, d, item);
    assert Typed(item, r.body);
    if item.DeploymentItem? {
      MutatedVolumes(r, h);
      MountedIsMountable(r.body.pod.volumes, h.settings.name);
    }
  }

  lemma WelcomingEnsures(store: Resources, h: HostView, d: Defaults, item: Item)
    requires Welcoming(h, store) && Mountable(d.pod.volumes)
    ensures Ensured(store, h, d, item).ok && Welcoming(h, Ensured(store, h, d, item).store)
  {
    hide Mutate, Welcome, Mountable, KeyOf;
    MutateWelcome(h, d, item, Find(store, KeyOf(h.key, item)));
  }

  lemma {:induction false} WelcomingPasses(store: Resources, h: HostView, d: Defaults, items: seq<Item>)
    requires Welcoming(h, store) && Mountable(d.pod.volumes)
    ensures PassOver(store, h, d, items).ok && Welcoming(h, PassOver(store, h, d, items).store)
  {
    if items != [] {
      hide Ensured, Welcoming, Mountable;
      var init, last := items[..|items| - 1], items[|items| - 1];
      WelcomingPasses(store, h, d, init);
      WelcomingEnsures(PassOver(store, h, d, init).store, h, d, last);
    }
  }

  /** From an empty store every pass goes through; and when resolved translations of one name are
      different sources, the second pass goes through as well and writes. */
  lemma AmbiguousPassWrites(h: HostView, d: Defaults, announcement: Option<Source>, error: Option<Source>,
                            login: Option<Source>, translations: seq<Source>)
    requires Mountable(d.pod.volumes) && !Unambiguous(translations)
    ensures var items := HostItems(h.key, announcement, error, login, translations);
      var first := PassOver(map[], h, d, items);
      var second := PassOver(first.store, h, d, items);
      first.ok && second.ok && second.writes > 0
  {
    hide HostItems, PassOver, Mountable, Unambiguous, FlagsStable;
    var items := HostItems(h.key, announcement, error, login, translations);
    WelcomingPasses(map[], h, d, items);
    hide Welcoming;
    WelcomingPasses(PassOver(map[], h, d, items).store, h, d, items);
    HostPassIsSilent(map[], h, d, announcement, error, login, translations);
  }

  /** A namespaced and a cluster translation of one name: whatever the host and its defaults, if
      they can be deployed, every second pass writes. */
  lemma TwoTranslationsOfOneName(h: HostView, d: Defaults)
    requires d.pod.volumes == []
    ensures var items := HostItems(h.key, None, None, None, [Source("fr", "namespaced", 1), Source("fr", "cluster", 1)]);
      var second := PassOver(PassOver(map[], h, d, items).store, h, d, items);
      second.ok && second.writes > 0
  {
    hide HostItems, PassOver, FlagsStable;
    var translations := [Source("fr", "namespaced", 1), Source("fr", "cluster", 1)];
    assert translations[0].name == translations[1].name;
    assert |translations[0].spec| != |translations[1].spec|;
    AmbiguousPassWrites(h, d, None, None, None, translations);
  }

  // ---------- when the passes over a host settle ----------

  /** The mutate function for `item` goes through on an object found like this. */
  predicate Accepts(h: HostView, item: Item, r: Resource) {
    && Typed(item, r.body)
    && (item.DeploymentItem? ==> Mountable(r.body.pod.volumes))
    && (Labelled(item) ==> r.labels != map[] || r.generation.Some?)
    && (!item.BindingItem? && r.owner.Some? ==> r.owner == Some(h.uid))
  }

  predicate AcceptedIn(store: Resources, h: HostView, item: Item) {
    var found := Find(store, KeyOf(h.key, item));
    found.Some? && Accepts(h, item, found.value)
  }

  lemma AcceptsMutate(h: HostView, d: Defaults, item: Item, r: Resource)
    ensures Accepts(h, item, r) <==> Mutate(h, d, item, Some(r)).Some?
  {
  }

  lemma MutateAccepts(h: HostView, d: Defaults, item: Item, found: Option<Resource>)
    requires Mutate(h, d, item, found).Some?
    ensures Accepts(h, item, Mutate(h, d, item, found).value)
  {
    var r := if found.Some? then found.value else Blank(h, d, item);
    if item.DeploymentItem? {
      MutatedVolumes(r, h);
      MountedIsMountable(r.body.pod.volumes, h.settings.name);
    }
    hide Deployments.Mutated, Mountable, Mounted;
  }

  /** Items for one object are alike in all that acceptance depends on. */
  lemma AcceptsAlike(h: HostView, a: Item, b: Item, r: Resource)
    requires KeyOf(h.key, a) == KeyOf(h.key, b) && Accepts(h, a, r)
    ensures Accepts(h, b, r)
  {
    hide Mountable;
  }

  lemma EnsuredAccepts(store: Resources, h: HostView, d: Defaults, item: Item, other: Item)
    requires Ensured(store, h, d, item).ok && (other == item || AcceptedIn(store, h, other))
    ensures AcceptedIn(Ensured(store, h, d, item).store, h, other)
  {
    hide Mutate, Accepts, KeyOf, Ensured;
    EnsuredIsMutated(store, h, d, item);
    EnsuredOk(store, h, d, item);
    MutateAccepts(h, d, item, Find(store, KeyOf(h.key, item)));
    if KeyOf(h.key, other) == KeyOf(h.key, item) {
      AcceptsAlike(h, item, other, Mutate(h, d, item, Find(store, KeyOf(h.key, item))).value);
    }
  }

  lemma EnsuredOk(store: Resources, h: HostView, d: Defaults, item: Item)
    ensures Ensured(store, h, d, item).ok <==> Mutate(h, d, item, Find(store, KeyOf(h.key, item))).Some?
  {
    hide Mutate, KeyOf;
  }

  /** The item can be created or updated: its object is acceptable if it is there, and the template
      of a deployment that is not is fit to be mounted. */
  predicate Open(store: Resources, h: HostView, d: Defaults, item: Item) {
    match Find(store, KeyOf(h.key, item))
    case None => item.DeploymentItem? ==> Mountable(d.pod.volumes)
    case Some(r) => Accepts(h, item, r)
  }

  lemma OpenIsOk(store: Resources, h: HostView, d: Defaults, item: Item)
    ensures Open(store, h, d, item) <==> Ensured(store, h, d, item).ok
  {
    hide KeyOf, Mountable, Ensured;
    EnsuredOk(store, h, d, item);
    var found := Find(store, KeyOf(h.key, item));
    if found.Some? {
      AcceptsMutate(h, d, item, found.value);
    } else {
      assert "kdex.dev/instance" in Blank(h, d, item).labels;
    }
  }

  lemma OpenAlike(store: Resources, h: HostView, d: Defaults, a: Item, b: Item)
    requires KeyOf(h.key, a) == KeyOf(h.key, b) && Open(store, h, d, a)
    ensures Open(store, h, d, b)
  {
    hide Mountable, Accepts;
    var found := Find(store, KeyOf(h.key, a));
    if found.Some? {
      AcceptsAlike(h, a, b, found.value);
    }
  }

  /** A create or update that goes through makes no other one possible or impossible. */
  lemma OpenStays(store: Resources, h: HostView, d: Defaults, item: Item, other: Item)
    requires Ensured(store, h, d, item).ok
    ensures Open(Ensured(store, h, d, item).store, h, d, other) <==> Open(store, h, d, other)
  {
    hide Ensured, Mutate, Accepts, KeyOf, Mountable;
    EnsuredIsMutated(store, h, d, item);
    OpenIsOk(store, h, d, item);
    if KeyOf(h.key, other) == KeyOf(h.key, item) {
      OpenAlike(store, h, d, item, other);
      EnsuredAccepts(store, h, d, item, item);
      OpenAlike(Ensured(store, h, d, item).store, h, d, item, other);
    }
  }

  lemma {:induction false} OpenStaysThrough(store: Resources, h: HostView, d: Defaults, items: seq<Item>, other: Item)
    requires PassOver(store, h, d, items).ok
    ensures Open(PassOver(store, h, d, items).store, h, d, other) <==> Open(store, h, d, other)
  {
    if items != [] {
      hide Ensured, Open;
      OpenStaysThrough(store, h, d, items[..|items| - 1], other);
      OpenStays(PassOver(store, h, d, items[..|items| - 1]).store, h, d, items[|items| - 1], other);
    }
  }

  /** A pass goes through if and only if the store that it starts from lets each of its items. */
  lemma {:induction false} PassGoesThrough(store: Resources, h: HostView, d: Defaults, items: seq<Item>)
    ensures PassOver(store, h, d, items).ok <==> forall item :: item in items ==> Open(store, h, d, item)
  {
    if items != [] {
      hide Ensured, Open;
      var init, last := items[..|items| - 1], items[|items| - 1];
      var mid := PassOver(store, h, d, init);
      PassGoesThrough(store, h, d, init);
      assert forall item :: item in items <==> item in init || item == last;
      if mid.ok {
        OpenStaysThrough(store, h, d, init, last);
        OpenIsOk(mid.store, h, d, last);
      }
    }
  }

  /** A pass that goes through leaves all its objects acceptable. */
  lemma {:induction false} PassLeavesAccepted(store: Resources, h: HostView, d: Defaults, items: seq<Item>, item: Item)
    requires PassOver(store, h, d, items).ok && (item in items || AcceptedIn(store, h, item))
    ensures AcceptedIn(PassOver(store, h, d, items).store, h, item)
  {
    if items != [] {
      hide Ensured, AcceptedIn;
      var init, last := items[..|items| - 1], items[|items| - 1];
      if item != last {
        assert item in items ==> item in init;
        PassLeavesAccepted(store, h, d, init, item);
      }
      EnsuredAccepts(PassOver(store, h, d, init).store, h, d, last, item);
    }
  }

  lemma {:induction false} AcceptedPasses(store: Resources, h: HostView, d: Defaults, items: seq<Item>)
    requires forall item :: item in items ==> AcceptedIn(store, h, item)
    ensures PassOver(store, h, d, items).ok
  {
    if items != [] {
      hide Ensured, Accepts, Mutate, KeyOf;
      var init, last := items[..|items| - 1], items[|items| - 1];
      AcceptedPasses(store, h, d, init);
      assert last in items;
      PassLeavesAccepted(store, h, d, init, last);
      var mid := PassOver(store, h, d, init).store;
      EnsuredOk(mid, h, d, last);
      AcceptsMutate(h, d, last, Find(mid, KeyOf(h.key, last)).value);
    }
  }

  /** A pass that went through goes through again. */
  lemma PassAgain(store: Resources, h: HostView, d: Defaults, items: seq<Item>)
    requires PassOver(store, h, d, items).ok
    ensures PassOver(PassOver(store, h, d, items).store, h, d, items).ok
  {
    hide AcceptedIn, PassOver;
    var after := PassOver(store, h, d, items).store;
    forall item | item in items ensures AcceptedIn(after, h, item) {
      PassLeavesAccepted(store, h, d, items, item);
    }
    AcceptedPasses(after, h, d, items);
  }

  lemma {:induction false} DeploymentUntouched(store: Resources, h: HostView, d: Defaults, items: seq<Item>)
    requires PassOver(store, h, d, items).ok && DeploymentItem !in items
    ensures Find(PassOver(store, h, d, items).store, Own(h.key, Deployment)) == Find(store, Own(h.key, Deployment))
  {
    if items != [] {
      hide Ensured, Mutate;
      var init, last := items[..|items| - 1], items[|items| - 1];
      DeploymentUntouched(store, h, d, init);
      EnsuredIsMutated(PassOver(store, h, d, init).store, h, d, last);
      assert last in items && KeyOf(h.key, last) != Own(h.key, Deployment);
    }
  }

  /** A pass mutates the deployment that it finds, once. */
  lemma {:induction false} DeploymentAfterPass(store: Resources, h: HostView, d: Defaults, items: seq<Item>, i: nat)
    requires PassOver(store, h, d, items).ok && OnlyDeployment(items, i)
    ensures var key := Own(h.key, Deployment);
      Find(PassOver(store, h, d, items).store, key) == Mutate(h, d, DeploymentItem, Find(store, key))
  {
    hide Ensured, Mutate;
    var init, last := items[..|items| - 1], items[|items| - 1];
    var mid := PassOver(store, h, d, init).store;
    assert forall j :: 0 <= j < |init| ==> init[j] == items[j];
    EnsuredIsMutated(mid, h, d, last);
    if i == |items| - 1 {
      DeploymentUntouched(store, h, d, init);
    } else {
      DeploymentAfterPass(store, h, d, init, i);
      assert KeyOf(h.key, last) != Own(h.key, Deployment);
    }
  }

  lemma MutatedPod(h: HostView, d: Defaults, found: Option<Resource>)
    requires Mutate(h, d, DeploymentItem, found).Some?
    ensures var r := Mutate(h, d, DeploymentItem, found).value;
      r.body.DeploymentBody? && exists pod: PodValue ::
        r.body.pod.args == Flags.NewArgs(pod.args, pod.command, h.settings.name)
        && r.body.pod.command == Flags.RewriteAll(pod.command, h.settings.name)
  {
    var r := if found.Some? then found.value else Blank(h, d, DeploymentItem);
    hide Flags.NewArgs, Flags.RewriteAll;
    var pod := r.body.pod;
    assert Deployments.Mutated(pod, h.settings).args == Flags.NewArgs(pod.args, pod.command, h.settings.name);
  }

  /** After a pass the flags are stable unless the host's name is restless. */
  lemma FlagsAfterPass(store: Resources, h: HostView, d: Defaults, items: seq<Item>, i: nat)
    requires PassOver(store, h, d, items).ok && OnlyDeployment(items, i)
    ensures FlagsStable(PassOver(store, h, d, items).store, h, d) <==> !Flags.Restless(h.settings.name)
  {
    hide Flags.Stable, Flags.NewArgs, Flags.RewriteAll, Flags.Restless, Mutate;
    var key := Own(h.key, Deployment);
    DeploymentAfterPass(store, h, d, items, i);
    assert items[i] in items;
    PassLeavesAccepted(store, h, d, items, DeploymentItem);
    hide PassOver;
    MutatedPod(h, d, Find(store, key));
    var r := Mutate(h, d, DeploymentItem, Find(store, key)).value;
    var pod: PodValue :| r.body.pod.args == Flags.NewArgs(pod.args, pod.command, h.settings.name)
                         && r.body.pod.command == Flags.RewriteAll(pod.command, h.settings.name);
    Flags.StableAfterOneRun(pod.args, pod.command, h.settings.name);
  }

  /** The store after `n` passes over an unchanged host and unchanged references. */
  function AfterPasses(store: Resources, h: HostView, d: Defaults, items: seq<Item>, n: nat): Resources {
    if n == 0 then store else PassOver(AfterPasses(store, h, d, items, n - 1), h, d, items).store
  }

  /** The creates and updates that pass `n` makes, counted from 0. */
  function WritesOf(store: Resources, h: HostView, d: Defaults, items: seq<Item>, n: nat): nat {
    PassOver(AfterPasses(store, h, d, items, n), h, d, items).writes
  }

  lemma {:induction false} AllPassesGoThrough(store: Resources, h: HostView, d: Defaults, items: seq<Item>, n: nat)
    requires PassOver(store, h, d, items).ok
    ensures PassOver(AfterPasses(store, h, d, items, n), h, d, items).ok
  {
    hide PassOver;
    if n > 0 {
      AllPassesGoThrough(store, h, d, items, n - 1);
      PassAgain(AfterPasses(store, h, d, items, n - 1), h, d, items);
    }
  }

  /** Whether the passes over a host come to rest: its resolved translations of one name are one
      source, and its name does not hold the service flag without the focal flag. */
  predicate Settles(h: HostView, translations: seq<Source>) {
    Unambiguous(translations) && !Flags.Restless(h.settings.name)
  }

  /** From the third on, passes over an unchanged host and unchanged references all go through; and
      either every one of them writes nothing, or every one of them writes, and so raises events
      that queue the host again, without end. */
  lemma PassesSettle(store: Resources, h: HostView, d: Defaults, announcement: Option<Source>,
                     error: Option<Source>, login: Option<Source>, translations: seq<Source>, n: nat)
    requires PassOver(store, h, d, HostItems(h.key, announcement, error, login, translations)).ok && n >= 2
    ensures var items := HostItems(h.key, announcement, error, login, translations);
      && PassOver(AfterPasses(store, h, d, items, n), h, d, items).ok
      && (WritesOf(store, h, d, items, n) == 0 <==> Settles(h, translations))
  {
    hide HostItems, PassOver, FlagsStable, Unambiguous, Flags.Restless;
    var items := HostItems(h.key, announcement, error, login, translations);
    AllPassesGoThrough(store, h, d, items, n - 2);
    AllPassesGoThrough(store, h, d, items, n - 1);
    AllPassesGoThrough(store, h, d, items, n);
    OneDeployment(h.key, announcement, error, login, translations);
    var i :| OnlyDeployment(items, i);
    var before := AfterPasses(store, h, d, items, n - 2);
    FlagsAfterPass(before, h, d, items, i);
    HostPassIsSilent(AfterPasses(store, h, d, items, n - 1), h, d, announcement, error, login, translations);
  }

  // ---------- what a pass leaves in the objects it owns ----------

  /** The last item for an object decides what the pass leaves in it. */
  lemma {:induction false} LastWritten(store: Resources, h: HostView, d: Defaults, items: seq<Item>, i: nat)
    returns (found: Option<Resource>)
    requires PassOver(store, h, d, items).ok && i < |items|
    requires forall j :: i < j < |items| ==> KeyOf(h.key, items[j]) != KeyOf(h.key, items[i])
    ensures Mutate(h, d, items[i], found).Some?
    ensures Find(PassOver(store, h, d, items).store, KeyOf(h.key, items[i])) == Mutate(h, d, items[i], found)
  {
    hide Mutate, KeyOf, Ensured;
    var init, last := items[..|items| - 1], items[|items| - 1];
    var mid := PassOver(store, h, d, init).store;
    EnsuredIsMutated(mid, h, d, last);
    EnsuredOk(mid, h, d, last);
    if i == |items| - 1 {
      found := Find(mid, KeyOf(h.key, last));
    } else {
      assert init[i] == items[i];
      found := LastWritten(store, h, d, init, i);
    }
  }

  lemma {:induction false} WrittenBy(store: Resources, h: HostView, d: Defaults, items: seq<Item>, item: Item)
    returns (found: Option<Resource>)
    requires PassOver(store, h, d, items).ok && item in items
    requires forall other :: other in items && KeyOf(h.key, other) == KeyOf(h.key, item) ==> other == item
    ensures Mutate(h, d, item, found).Some?
    ensures Find(PassOver(store, h, d, items).store, KeyOf(h.key, item)) == Mutate(h, d, item, found)
  {
    hide Mutate, KeyOf, Ensured;
    var init, last := items[..|items| - 1], items[|items| - 1];
    var mid := PassOver(store, h, d, init).store;
    EnsuredIsMutated(mid, h, d, last);
    EnsuredOk(mid, h, d, last);
    if item == last {
      found := Find(mid, KeyOf(h.key, last));
    } else {
      assert item in init && last in items;
      found := WrittenBy(store, h, d, init, item);
    }
  }

  /** But for translations, only one item of a host pass is about an object. */
  lemma OnlyItemFor(h: Key, announcement: Option<Source>, error: Option<Source>, login: Option<Source>,
                    translations: seq<Source>, item: Item)
    requires item in HostItems(h, announcement, error, login, translations) && !item.TranslationItem?
    ensures var items := HostItems(h, announcement, error, login, translations);
      forall other :: other in items && KeyOf(h, other) == KeyOf(h, item) ==> other == item
  {
    hide HostItems;
    MembersOf(h, announcement, error, login, translations, item);
    forall other | other in HostItems(h, announcement, error, login, translations) && KeyOf(h, other) == KeyOf(h, item)
      ensures other == item
    {
      MembersOf(h, announcement, error, login, translations, other);
      if item.PageItem? {
        PageNamesInjective(h.name, item.pageType, h.name, other.pageType);
      }
    }
  }

  /** The object is there and controlled by the host. */
  predicate HasOwned(store: Resources, h: HostView, key: Key) {
    key in store && store[key].owner == Some(h.uid)
  }

  /** The internal object of that kind and name holds the content of the source, for this host. */
  predicate HoldsSource(store: Resources, h: HostView, kind: Kind, name: string, source: Source) {
    var key := Key(kind, h.key.ns, h.key.name + "-" + name);
    && HasOwned(store, h, key)
    && store[key].body == ContentBody(source.spec, h.key.name)
    && store[key].generation == Some(source.generation)
  }

  predicate HoldsPage(store: Resources, h: HostView, pageType: string, source: Option<Source>) {
    source.Some? ==> HoldsSource(store, h, InternalPage, pageType, source.value)
  }

  /** The internal host holds the spec and generation of the host, and names its pages and
      translations. */
  predicate HoldsInternalHost(store: Resources, h: HostView, announcement: Option<Source>, error: Option<Source>,
                              login: Option<Source>, translations: seq<Source>)
  {
    var key := Key(InternalHost, h.key.ns, h.key.name);
    && HasOwned(store, h, key)
    && store[key].generation == Some(h.generation)
    && store[key].body.InternalHostBody?
    && var body := store[key].body;
       && body.spec == h.spec
       && body.announcement == (if announcement.Some? then Some(h.key.name + "-announcement") else None)
       && body.error == (if error.Some? then Some(h.key.name + "-error") else None)
       && body.login == (if login.Some? then Some(h.key.name + "-login") else None)
       && |body.translations| == |translations|
       && forall i :: 0 <= i < |translations| ==> body.translations[i] == h.key.name + "-" + translations[i].name
  }

  predicate HoldsPermissions(store: Resources, h: HostView, d: Defaults) {
    var account := Key(ServiceAccount, h.key.ns, h.key.name);
    var binding := Key(RoleBinding, "", h.key.name + "-" + h.key.ns);
    && HasOwned(store, h, account) && store[account].body == AccountBody
    && "kdex.dev/kdex-nexus-host-finalizer" in store[account].finalizers
    && binding in store && store[binding].body == BindingBody(d.role, account)
    && "kdex.dev/kdex-nexus-host-finalizer" in store[binding].finalizers
  }

  /** The deployment that was there, or else the configured default, with what the host puts in. */
  ghost predicate HoldsWorkload(before: Resources, store: Resources, h: HostView, d: Defaults) {
    var config, deployment := Key(ConfigMap, h.key.ns, h.key.name), Key(Deployment, h.key.ns, h.key.name);
    var service := Key(Service, h.key.ns, h.key.name);
    && HasOwned(store, h, config) && store[config].body == ConfigBody(d.config)
    && HasOwned(store, h, service) && store[service].body.ServiceBody?
    && HasOwned(store, h, deployment) && store[deployment].body.DeploymentBody?
    && (deployment !in before ==> Deployed(d.pod, h.settings, store[deployment].body.pod))
    && (deployment in before ==>
          && before[deployment].body.DeploymentBody?
          && Deployed(before[deployment].body.pod, h.settings, store[deployment].body.pod))
  }

  lemma PageContents(store: Resources, h: HostView, d: Defaults, announcement: Option<Source>, error: Option<Source>,
                     login: Option<Source>, translations: seq<Source>, pageType: string, source: Source)
    requires PassOver(store, h, d, HostItems(h.key, announcement, error, login, translations)).ok
    requires PageItem(pageType, source.spec, source.generation) in HostItems(h.key, announcement, error, login, translations)
    ensures HoldsSource(PassOver(store, h, d, HostItems(h.key, announcement, error, login, translations)).store,
                        h, InternalPage, pageType, source)
  {
    hide HostItems, PassOver;
    var items, item := HostItems(h.key, announcement, error, login, translations),
                       PageItem(pageType, source.spec, source.generation);
    OnlyItemFor(h.key, announcement, error, login, translations, item);
    var found := WrittenBy(store, h, d, items, item);
  }

  /** Every page is announced where its type says. */
  lemma PagesOfPass(store: Resources, h: HostView, d: Defaults, announcement: Option<Source>, error: Option<Source>,
                    login: Option<Source>, translations: seq<Source>)
    requires PassOver(store, h, d, HostItems(h.key, announcement, error, login, translations)).ok
    ensures var r := PassOver(store, h, d, HostItems(h.key, announcement, error, login, translations)).store;
      && HoldsPage(r, h, "announcement", announcement) && HoldsPage(r, h, "error", error)
      && HoldsPage(r, h, "login", login)
  {
    hide PassOver, HoldsSource;
    if announcement.Some? {
      assert PageItems("announcement", announcement)[0] in PageItems("announcement", announcement);
      PageContents(store, h, d, announcement, error, login, translations, "announcement", announcement.value);
    }
    if error.Some? {
      assert PageItems("error", error)[0] in PageItems("error", error);
      PageContents(store, h, d, announcement, error, login, translations, "error", error.value);
    }
    if login.Some? {
      assert PageItems("login", login)[0] in PageItems("login", login);
      PageContents(store, h, d, announcement, error, login, translations, "login", login.value);
    }
  }

  lemma InternalHostOfPass(store: Resources, h: HostView, d: Defaults, announcement: Option<Source>,
                           error: Option<Source>, login: Option<Source>, translations: seq<Source>)
    requires PassOver(store, h, d, HostItems(h.key, announcement, error, login, translations)).ok
    ensures HoldsInternalHost(PassOver(store, h, d, HostItems(h.key, announcement, error, login, translations)).store,
                              h, announcement, error, login, translations)
  {
    hide HostItems, PassOver;
    var items := HostItems(h.key, announcement, error, login, translations);
    var item := InternalHostItem(PageName(h.key, "announcement", announcement), PageName(h.key, "error", error),
                                 PageName(h.key, "login", login), TranslationNames(h.key, translations));
    MembersOf(h.key, announcement, error, login, translations, item);
    OnlyItemFor(h.key, announcement, error, login, translations, item);
    var found := WrittenBy(store, h, d, items, item);
    assert h.key.name + "-" + "announcement" == h.key.name + "-announcement";
    assert h.key.name + "-" + "error" == h.key.name + "-error";
    assert h.key.name + "-" + "login" == h.key.name + "-login";
  }

  lemma PermissionsOfPass(store: Resources, h: HostView, d: Defaults, announcement: Option<Source>,
                          error: Option<Source>, login: Option<Source>, translations: seq<Source>)
    requires PassOver(store, h, d, HostItems(h.key, announcement, error, login, translations)).ok
    ensures HoldsPermissions(PassOver(store, h, d, HostItems(h.key, announcement, error, login, translations)).store, h, d)
  {
    hide HostItems, PassOver;
    var items := HostItems(h.key, announcement, error, login, translations);
    MembersOf(h.key, announcement, error, login, translations, AccountItem);
    MembersOf(h.key, announcement, error, login, translations, BindingItem);
    OnlyItemFor(h.key, announcement, error, login, translations, AccountItem);
    OnlyItemFor(h.key, announcement, error, login, translations, BindingItem);
    var account := WrittenBy(store, h, d, items, AccountItem);
    var binding := WrittenBy(store, h, d, items, BindingItem);
  }

  lemma WorkloadOfPass(store: Resources, h: HostView, d: Defaults, announcement: Option<Source>,
                       error: Option<Source>, login: Option<Source>, translations: seq<Source>)
    requires PassOver(store, h, d, HostItems(h.key, announcement, error, login, translations)).ok
    ensures HoldsWorkload(store, PassOver(store, h, d, HostItems(h.key, announcement, error, login, translations)).store,
                          h, d)
  {
    hide HostItems, PassOver, Deployed, Deployments.Mutated;
    var items := HostItems(h.key, announcement, error, login, translations);
    MembersOf(h.key, announcement, error, login, translations, ConfigItem);
    MembersOf(h.key, announcement, error, login, translations, ServiceItem);
    OnlyItemFor(h.key, announcement, error, login, translations, ConfigItem);
    OnlyItemFor(h.key, announcement, error, login, translations, ServiceItem);
    var config := WrittenBy(store, h, d, items, ConfigItem);
    var service := WrittenBy(store, h, d, items, ServiceItem);
    OneDeployment(h.key, announcement, error, login, translations);
    var i :| OnlyDeployment(items, i);
    DeploymentAfterPass(store, h, d, items, i);
    assert items[i] in items;
    MembersOf(h.key, announcement, error, login, translations, DeploymentItem);
    OnlyItemFor(h.key, announcement, error, login, translations, DeploymentItem);
    var deployment := WrittenBy(store, h, d, items, DeploymentItem);
    DeploymentMutated(h, d, Find(store, Own(h.key, Deployment)));
  }

  lemma DeploymentMutated(h: HostView, d: Defaults, found: Option<Resource>)
    requires Mutate(h, d, DeploymentItem, found).Some?
    ensures var r := Mutate(h, d, DeploymentItem, found).value;
      && r.owner == Some(h.uid) && r.body.DeploymentBody?
      && (found.None? ==> Deployed(d.pod, h.settings, r.body.pod))
      && (found.Some? ==> found.value.body.DeploymentBody? && Deployed(found.value.body.pod, h.settings, r.body.pod))
  {
    hide Deployed, Deployments.Mutated, Mountable;
    MutatedIsDeployed(d.pod, h.settings);
    if found.Some? {
      MutatedIsDeployed(found.value.body.pod, h.settings);
    }
  }

  /** After the last translation of its name, no item is about the same object. */
  lemma LaterItemsDiffer(h: Key, announcement: Option<Source>, error: Option<Source>, login: Option<Source>,
                         translations: seq<Source>, i: nat, j: nat)
    requires i < |translations| && forall l :: i < l < |translations| ==> translations[l].name != translations[i].name
    requires var pages := PageItems("announcement", announcement) + PageItems("error", error) + PageItems("login", login);
             |pages| + i < j < |HostItems(h, announcement, error, login, translations)|
    ensures KeyOf(h, HostItems(h, announcement, error, login, translations)[j])
         != Key(InternalTranslation, h.ns, Derived(h.name, translations[i].name))
  {
    var items := HostItems(h, announcement, error, login, translations);
    var pages := PageItems("announcement", announcement) + PageItems("error", error) + PageItems("login", login);
    if j < |pages| + |translations| {
      var l := j - |pages|;
      assert items[j] == TranslationItems(translations)[l];
      if Derived(h.name, translations[l].name) == Derived(h.name, translations[i].name) {
        TranslationNamesInjective(h.name, translations[l].name, translations[i].name);
      }
    } else {
      TailItem(announcement, error, login, translations, h, j);
    }
  }

  lemma TranslationAt(h: Key, announcement: Option<Source>, error: Option<Source>, login: Option<Source>,
                      translations: seq<Source>, i: nat) returns (k: nat)
    requires i < |translations|
    ensures k == |PageItems("announcement", announcement) + PageItems("error", error) + PageItems("login", login)| + i
    ensures k < |HostItems(h, announcement, error, login, translations)|
    ensures HostItems(h, announcement, error, login, translations)[k]
         == TranslationItem(translations[i].name, translations[i].spec, translations[i].generation)
  {
    k := |PageItems("announcement", announcement) + PageItems("error", error) + PageItems("login", login)| + i;
  }

  /** The last source of a name decides the content of the internal translation of that name. */
  lemma TranslationOfPass(store: Resources, h: HostView, d: Defaults, announcement: Option<Source>,
                          error: Option<Source>, login: Option<Source>, translations: seq<Source>, i: nat)
    requires PassOver(store, h, d, HostItems(h.key, announcement, error, login, translations)).ok
    requires i < |translations| && forall j :: i < j < |translations| ==> translations[j].name != translations[i].name
    ensures HoldsSource(PassOver(store, h, d, HostItems(h.key, announcement, error, login, translations)).store,
                        h, InternalTranslation, translations[i].name, translations[i])
  {
    hide HostItems, PassOver, PageItems;
    var items := HostItems(h.key, announcement, error, login, translations);
    var k := TranslationAt(h.key, announcement, error, login, translations, i);
    forall j | k < j < |items| ensures KeyOf(h.key, items[j]) != KeyOf(h.key, items[k]) {
      LaterItemsDiffer(h.key, announcement, error, login, translations, i, j);
    }
    var found := LastWritten(store, h, d, items, k);
  }

  lemma TailItem(announcement: Option<Source>, error: Option<Source>, login: Option<Source>,
                 translations: seq<Source>, h: Key, j: nat)
    requires var pages := PageItems("announcement", announcement) + PageItems("error", error) + PageItems("login", login);
             |pages| + |translations| <= j < |HostItems(h, announcement, error, login, translations)|
    ensures !HostItems(h, announcement, error, login, translations)[j].TranslationItem?
  {
  }

  /** What a host pass that went through leaves: the pages and translations with the content of
      their sources, the internal host that names them, the permissions, and the workload. */
  lemma HostPassContents(store: Resources, h: HostView, d: Defaults, announcement: Option<Source>,
                         error: Option<Source>, login: Option<Source>, translations: seq<Source>)
    requires PassOver(store, h, d, HostItems(h.key, announcement, error, login, translations)).ok
    ensures var r := PassOver(store, h, d, HostItems(h.key, announcement, error, login, translations)).store;
      && HoldsPage(r, h, "announcement", announcement) && HoldsPage(r, h, "error", error)
      && HoldsPage(r, h, "login", login)
      && (forall i :: 0 <= i < |translations|
                      && (forall j :: i < j < |translations| ==> translations[j].name != translations[i].name)
            ==> HoldsSource(r, h, InternalTranslation, translations[i].name, translations[i]))
      && HoldsInternalHost(r, h, announcement, error, login, translations)
      && HoldsPermissions(r, h, d)
      && HoldsWorkload(store, r, h, d)
  {
    hide HostItems, PassOver, HoldsPage, HoldsSource, HoldsInternalHost, HoldsPermissions, HoldsWorkload;
    PagesOfPass(store, h, d, announcement, error, login, translations);
    InternalHostOfPass(store, h, d, announcement, error, login, translations);
    PermissionsOfPass(store, h, d, announcement, error, login, translations);
    WorkloadOfPass(store, h, d, announcement, error, login, translations);
    forall i | 0 <= i < |translations|
               && (forall j :: i < j < |translations| ==> translations[j].name != translations[i].name)
      ensures HoldsSource(PassOver(store, h, d, HostItems(h.key, announcement, error, login, translations)).store,
                          h, InternalTranslation, translations[i].name, translations[i])
    {
      TranslationOfPass(store, h, d, announcement, error, login, translations, i);
    }
  }

  /** What an object that was created carries from the host: its labels, two more, and its
      annotations; a service also the configured default. */
  predicate Carries(h: HostView, d: Defaults, r: Resource) {
    && r.annotations == h.annotations
    && "app.kubernetes.io/name" in r.labels && r.labels["app.kubernetes.io/name"] == "kdex-host"
    && "kdex.dev/instance" in r.labels && r.labels["kdex.dev/instance"] == h.key.name
    && (forall l :: l in h.labels && l !in {"app.kubernetes.io/name", "kdex.dev/instance",
                                                "kdex.dev/utility-page-type"}
          ==> l in r.labels && r.labels[l] == h.labels[l])
    && (r.body.ServiceBody? ==> r.body.spec == d.service)
  }

  lemma BlankCarries(h: HostView, d: Defaults, item: Item)
    ensures Carries(h, d, Blank(h, d, item))
  {
    assert "app.kubernetes.io/name"[0] == 'a' && "kdex.dev/instance"[0] == 'k' && "kdex.dev/instance"[9] == 'i';
    assert "kdex.dev/utility-page-type"[9] == 'u';
  }

  lemma MutateCarries(h: HostView, d: Defaults, item: Item, found: Option<Resource>)
    requires found.Some? ==> Carries(h, d, found.value)
    requires Mutate(h, d, item, found).Some?
    ensures Carries(h, d, Mutate(h, d, item, found).value)
  {
    BlankCarries(h, d, item);
    hide Blank, Deployments.Mutated, Mountable;
  }

  lemma {:induction false} CreatedCarry(store: Resources, h: HostView, d: Defaults, items: seq<Item>, key: Key)
    requires PassOver(store, h, d, items).ok && key !in store && key in PassOver(store, h, d, items).store
    ensures Carries(h, d, PassOver(store, h, d, items).store[key])
  {
    if items != [] {
      hide Ensured, Mutate, Carries, KeyOf;
      var init, last := items[..|items| - 1], items[|items| - 1];
      var mid := PassOver(store, h, d, init).store;
      if key in mid { CreatedCarry(store, h, d, init, key); }
      EnsuredIsMutated(mid, h, d, last);
      EnsuredOk(mid, h, d, last);
      if key == KeyOf(h.key, last) {
        MutateCarries(h, d, last, Find(mid, key));
      }
    }
  }

  /** An object that another uid controls is refused, and nothing is written. */
  lemma ForeignIsRefused(store: Resources, h: HostView, d: Defaults, item: Item)
    requires var key := KeyOf(h.key, item);
             key in store && store[key].owner.Some? && store[key].owner != Some(h.uid) && !item.BindingItem?
    ensures !Ensured(store, h, d, item).ok && Ensured(store, h, d, item).store == store
  {
  }
}
