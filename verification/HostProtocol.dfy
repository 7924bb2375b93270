/** The lifecycle of a host over the API server, one call at a time.

    A reconcile pass is not atomic: between any two of its calls users and other controllers may
    delete or edit objects and finish terminations, and passes over other hosts may run. Each host
    has at most one pass in flight. Reads return the current object; a write fails when the object
    changed since it was read; deleting an object that carries finalizers only marks it, and no
    finalizer may be added to a marked object. Nobody but the host controller adds or removes the
    host finalizer, creates the objects it owns, or changes their owner and host reference. */
module HostProtocol {
  import opened Options

  datatype Kind =
    | Host | InternalHost | InternalPage | InternalTranslation
    | ConfigMap | ServiceAccount | RoleBinding | Deployment | Service

  datatype Key = Key(kind: Kind, ns: string, name: string)

  /** `held` says that the object carries the host finalizer, `foreign` are its other finalizers.
      `hostRef` is the host named by an internal page or translation. */
  datatype Obj = Obj(uid: nat, owner: Option<nat>, held: bool, foreign: set<string>,
                     marked: bool, rv: nat, hostRef: string)

  type Store = map<Key, Obj>

  /** How a pass ended, but for the deferred status write. `Deleted` and `Waited` both requeue. */
  datatype Outcome = Admitted | Complete | Deleted | Waited | Released | Failed

  /** The next call of a pass. In `Ensuring(pre, k)` and `Writing(pre, k, _)` the keys `pre` and
      then the owned objects from index `k` remain to be created or updated. */
  datatype Stage =
    | Adding
    | Ensuring(pre: seq<Key>, k: nat)
    | Writing(pre: seq<Key>, k: nat, found: Option<Obj>)
    | GetInternalHost
    | DeleteInternalHost
    | ListPages
    | DeletePages(left: seq<Key>)
    | ListTranslations
    | DeleteTranslations(left: seq<Key>)
    | GetDeployment
    | DeleteDeployment
    | GetBinding
    | PutBinding(seen: Obj)
    | GetAccount
    | PutAccount(seen: Obj)
    | Release
    | Done(outcome: Outcome)

  /** `host` is the host as the pass read it. `before` is history: the weight of what was left to
      tear down when the pass began. */
  datatype Pass = Pass(host: Obj, stage: Stage, before: nat)

  datatype State = State(store: Store, passes: map<Key, Pass>, uids: nat, clock: nat)

  const Init := State(map[], map[], 0, 0)

  // ---------- keys ----------

  function Own(h: Key, kind: Kind): Key {
    Key(kind, h.ns, h.name)
  }

  function Binding(h: Key): Key {
    Key(RoleBinding, "", h.name + "-" + h.ns)
  }

  function Account(h: Key): Key {
    Own(h, ServiceAccount)
  }

  const FIXED := 6

  /** The owned objects in the order in which a pass creates them. */
  function Fixed(h: Key, k: nat): Key
    requires k < FIXED
  {
    match k
    case 0 => Own(h, ConfigMap)
    case 1 => Account(h)
    case 2 => Binding(h)
    case 3 => Own(h, Deployment)
    case 4 => Own(h, Service)
    case _ => Own(h, InternalHost)
  }

  /** The internal pages and translations are named after the host, a dash, and a page type or the
      name of the translation. */
  ghost predicate NamedAfter(h: Key, key: Key) {
    && (key.kind == InternalPage || key.kind == InternalTranslation)
    && key.ns == h.ns
    && exists suffix: string :: key.name == h.name + "-" + suffix
  }

  function NextKey(h: Key, pre: seq<Key>, k: nat): Key
    requires pre != [] || k < FIXED
  {
    if pre != [] then pre[0] else Fixed(h, k)
  }

  /** The field index on the host reference. */
  function Listed(store: Store, h: Key, kind: Kind): set<Key> {
    set key | key in store && key.kind == kind && key.ns == h.ns
              && store[key].hostRef == h.name && store[key].hostRef != ""
  }

  predicate Held(store: Store, key: Key) {
    key in store && store[key].held
  }

  // ---------- the API server ----------

  /** A write: a marked object vanishes with its last finalizer. */
  function Put(store: Store, key: Key, o: Obj): Store {
    if o.marked && !o.held && o.foreign == {} then store - {key} else store[key := o]
  }

  function Delete(store: Store, key: Key, clock: nat): Store
    requires key in store
  {
    if store[key].marked then store else Put(store, key, store[key].(marked := true, rv := clock))
  }

  /** The object has not changed since it was read. */
  predicate Current(store: Store, key: Key, seen: Obj) {
    key in store && store[key].rv == seen.rv
  }

  // ---------- what a pass leaves to tear down ----------

  /** The objects that teardown waits for. */
  function Remaining(store: Store, h: Key): set<Key> {
    Listed(store, h, InternalPage) + Listed(store, h, InternalTranslation)
    + set key | key in {Own(h, InternalHost), Own(h, Deployment)} && key in store
  }

  /** Live 2, terminating 1, plus one per finalizer. */
  function Weight(o: Obj): nat {
    (if o.marked then 1 else 2) + |o.foreign| + (if o.held then 1 else 0)
  }

  ghost function Sum(store: Store, keys: set<Key>): nat
    requires keys <= store.Keys
  {
    if keys == {} then 0
    else
      var key :| key in keys;
      Weight(store[key]) + Sum(store, keys - {key})
  }

  ghost function Total(store: Store, h: Key): nat {
    Sum(store, Remaining(store, h))
    + (if Held(store, Binding(h)) then 1 else 0) + (if Held(store, Account(h)) then 1 else 0)
  }

  // ---------- steps ----------

  datatype Action =
    | AddHost(h: Key)
    | Touch(key: Key)
    | AddForeign(key: Key, finalizer: string)
    | DropForeign(key: Key, finalizer: string)
    | UserDelete(key: Key)
    | Begin(h: Key, pre: seq<Key>)
    | Call(h: Key, listing: seq<Key>, changed: bool)
    | Abort(h: Key)
    | End(h: Key, recorded: bool)

  /** The first call of a pass over the host it read. */
  function FirstStage(host: Obj, pre: seq<Key>): Stage {
    if !host.marked then if host.held then Ensuring(pre, 0) else Adding
    else if host.held then GetInternalHost
    else Done(Complete)
  }

  function Advance(pre: seq<Key>, k: nat): Stage {
    if pre != [] then Ensuring(pre[1..], k)
    else if k + 1 < FIXED then Ensuring([], k + 1)
    else Done(Complete)
  }

  /** What the mutate functions set, besides the content: the finalizer on the service account and
      the role binding, the host reference on pages and translations, and the controlling owner on
      all but the role binding. */
  function Mutated(h: Key, uid: nat, key: Key, o: Obj): Obj {
    o.(held := o.held || key.kind == ServiceAccount || key.kind == RoleBinding,
       hostRef := if key.kind == InternalPage || key.kind == InternalTranslation then h.name else o.hostRef,
       owner := if key.kind == RoleBinding then o.owner else Some(uid))
  }

  /** The write half of CreateOrUpdate. It fails when another uid controls the object, when the
      object changed since it was read, and when it would add a finalizer to a marked object. It
      writes nothing when nothing changed. */
  function Ensure(s: State, h: Key, p: Pass, key: Key, found: Option<Obj>, changed: bool): (State, bool) {
    match found
    case None =>
      if key in s.store then (s, false)
      else
        var o := Mutated(h, p.host.uid, key, Obj(s.uids, None, false, {}, false, s.clock, ""));
        (s.(store := s.store[key := o], uids := s.uids + 1), true)
    case Some(f) =>
      var g := Mutated(h, p.host.uid, key, f);
      if key.kind != RoleBinding && f.owner.Some? && f.owner != Some(p.host.uid) then (s, false)
      else if g == f && !changed then (s, true)
      else if !Current(s.store, key, f) || (f.marked && g.held && !f.held) then (s, false)
      else (s.(store := Put(s.store, key, g.(rv := s.clock))), true)
  }

  function Staged(s: State, h: Key, stage: Stage): State
    requires h in s.passes
  {
    s.(passes := s.passes[h := s.passes[h].(stage := stage)])
  }

  /** The live ones of a listing are deleted one by one. */
  ghost predicate IsListing(store: Store, listing: seq<Key>, keys: set<Key>) {
    && (forall key :: key in listing <==> key in keys && key in store && !store[key].marked)
    && (forall i, j :: 0 <= i < j < |listing| ==> listing[i] != listing[j])
  }

  function CallDelete(s: State, h: Key, key: Key, stage: Stage): State
    requires h in s.passes
  {
    if key in s.store then Staged(s.(store := Delete(s.store, key, s.clock)), h, stage)
    else Staged(s, h, Done(Failed))
  }

  function CallRemoveFinalizer(s: State, h: Key, key: Key, seen: Obj, stage: Stage): State
    requires h in s.passes
  {
    if Current(s.store, key, seen)
    then Staged(s.(store := Put(s.store, key, s.store[key].(held := false, rv := s.clock))), h, stage)
    else Staged(s, h, Done(Failed))
  }

  /** One call of the pass over `h`. */
  function CallStep(s: State, h: Key, listing: seq<Key>, changed: bool): State
    requires h in s.passes && !s.passes[h].stage.Done?
  {
    var p, store := s.passes[h], s.store;
    match p.stage
    case Adding =>
      if Current(store, h, p.host) && !store[h].marked
      then Staged(s.(store := store[h := store[h].(held := true, rv := s.clock)]), h, Done(Admitted))
      else Staged(s, h, Done(Failed))
    case Ensuring(pre, k) =>
      if pre == [] && k >= FIXED then Staged(s, h, Done(Complete))
      else
        var key := NextKey(h, pre, k);
        Staged(s, h, Writing(pre, k, if key in store then Some(store[key]) else None))
    case Writing(pre, k, found) =>
      if pre == [] && k >= FIXED then Staged(s, h, Done(Complete))
      else
        var (t, ok) := Ensure(s, h, p, NextKey(h, pre, k), found, changed);
        if h in t.passes then Staged(t, h, if ok then Advance(pre, k) else Done(Failed)) else t
    case GetInternalHost =>
      var key := Own(h, InternalHost);
      Staged(s, h, if key !in store then ListPages
                   else if store[key].marked then Done(Waited) else DeleteInternalHost)
    case DeleteInternalHost => CallDelete(s, h, Own(h, InternalHost), Done(Deleted))
    case ListPages =>
      Staged(s, h, if Listed(store, h, InternalPage) == {} then ListTranslations
                   else if listing == [] then Done(Waited) else DeletePages(listing))
    case DeletePages(left) =>
      if left == [] then Staged(s, h, Done(Failed))
      else CallDelete(s, h, left[0], if |left| == 1 then Done(Deleted) else DeletePages(left[1..]))
    case ListTranslations =>
      Staged(s, h, if Listed(store, h, InternalTranslation) == {} then GetDeployment
                   else if listing == [] then Done(Waited) else DeleteTranslations(listing))
    case DeleteTranslations(left) =>
      if left == [] then Staged(s, h, Done(Failed))
      else CallDelete(s, h, left[0], if |left| == 1 then Done(Deleted) else DeleteTranslations(left[1..]))
    case GetDeployment =>
      var key := Own(h, Deployment);
      Staged(s, h, if key !in store then GetBinding
                   else if store[key].marked then Done(Waited) else DeleteDeployment)
    case DeleteDeployment => CallDelete(s, h, Own(h, Deployment), Done(Deleted))
    case GetBinding =>
      Staged(s, h, if Held(store, Binding(h)) then PutBinding(store[Binding(h)]) else GetAccount)
    case PutBinding(seen) => CallRemoveFinalizer(s, h, Binding(h), seen, GetAccount)
    case GetAccount =>
      Staged(s, h, if Held(store, Account(h)) then PutAccount(store[Account(h)]) else Release)
    case PutAccount(seen) => CallRemoveFinalizer(s, h, Account(h), seen, Release)
    case Release => CallRemoveFinalizer(s, h, h, p.host, Done(Released))
    case Done(_) => s
  }

  ghost predicate Enabled(s: State, a: Action) {
    match a
    case AddHost(h) =>
      // Hosts whose role bindings would share a name are outside the model.
      && h.kind == Host && h !in s.store && h.name != ""
      && forall g :: g in s.store && g.kind == Host ==> Binding(g) != Binding(h)
    case Touch(key) => key in s.store
    case AddForeign(key, _) => key in s.store && !s.store[key].marked
    case DropForeign(key, f) => key in s.store && f in s.store[key].foreign
    case UserDelete(key) => key in s.store
    case Begin(h, pre) =>
      && h.kind == Host && h in s.store && h !in s.passes
      && forall key :: key in pre ==> NamedAfter(h, key)
    case Call(h, listing, _) =>
      && h in s.passes && !s.passes[h].stage.Done?
      && (s.passes[h].stage.ListPages? ==> IsListing(s.store, listing, Listed(s.store, h, InternalPage)))
      && (s.passes[h].stage.ListTranslations? ==>
            IsListing(s.store, listing, Listed(s.store, h, InternalTranslation)))
    case Abort(h) => h in s.passes && !s.passes[h].stage.Done?
    case End(h, _) => h in s.passes && s.passes[h].stage.Done?
  }

  ghost function Apply(s: State, a: Action): State
    requires Enabled(s, a)
  {
    match a
    case AddHost(h) =>
      s.(store := s.store[h := Obj(s.uids, None, false, {}, false, s.clock, "")], uids := s.uids + 1)
    case Touch(key) => s.(store := s.store[key := s.store[key].(rv := s.clock)])
    case AddForeign(key, f) =>
      s.(store := s.store[key := s.store[key].(foreign := s.store[key].foreign + {f}, rv := s.clock)])
    case DropForeign(key, f) =>
      s.(store := Put(s.store, key, s.store[key].(foreign := s.store[key].foreign - {f}, rv := s.clock)))
    case UserDelete(key) => s.(store := Delete(s.store, key, s.clock))
    case Begin(h, pre) =>
      s.(passes := s.passes[h := Pass(s.store[h], FirstStage(s.store[h], pre), Total(s.store, h))])
    case Call(h, listing, changed) => CallStep(s, h, listing, changed)
    case Abort(h) => Staged(s, h, Done(Failed))
    case End(h, recorded) =>
      // The deferred status write, when it is not refused, gives the host a new version.
      s.(passes := s.passes - {h},
         store := if recorded && h in s.store then s.store[h := s.store[h].(rv := s.clock)] else s.store)
  }

  ghost function Next(s: State, a: Action): State
    requires Enabled(s, a)
  {
    Apply(s, a).(clock := s.clock + 1)
  }

  ghost predicate Follows(s: State, t: State) {
    exists a :: Enabled(s, a) && t == Next(s, a)
  }

  ghost predicate IsRun(run: seq<State>) {
    && run != [] && run[0] == Init
    && forall i :: 0 <= i < |run| - 1 ==> Follows(run[i], run[i + 1])
  }
}
