/** Safety of the host lifecycle: what holds in every reachable state, inside passes too. */
module HostSafety {
  import opened Options
  import opened HostProtocol

  // ---------- invariants ----------

  /** A marked object is kept by some finalizer. */
  predicate Persists(o: Obj) {
    o.marked ==> o.held || o.foreign != {}
  }

  ghost predicate Versions(s: State) {
    && (forall k :: k in s.store ==>
          s.store[k].uid < s.uids && s.store[k].rv < s.clock && Persists(s.store[k]))
    && (forall k, l :: k in s.store && l in s.store && k != l ==> s.store[k].uid != s.store[l].uid)
  }

  /** A version read earlier that is still the version of the object is still the object. */
  ghost predicate Faithful(store: Store, key: Key, seen: Obj, clock: nat) {
    seen.rv < clock && (Current(store, key, seen) ==> store[key] == seen)
  }

  ghost predicate DistinctBindings(store: Store) {
    forall g, h :: g in store && h in store && g.kind == Host && h.kind == Host && g != h ==> Binding(g) != Binding(h)
  }

  predicate Tearing(stage: Stage) {
    !stage.Adding? && !stage.Ensuring? && !stage.Writing? && !stage.Done?
  }

  predicate Active(stage: Stage) {
    !stage.Adding? && !stage.Done?
  }

  /** How far a teardown pass has come. */
  function Rank(stage: Stage): nat {
    match stage
    case ListPages => 1
    case DeletePages(_) => 1
    case ListTranslations => 2
    case DeleteTranslations(_) => 2
    case GetDeployment => 3
    case DeleteDeployment => 3
    case GetBinding => 4
    case PutBinding(_) => 4
    case GetAccount => 5
    case PutAccount(_) => 5
    case Release => 6
    case _ => 0
  }

  /** What a teardown pass at `rank` has found absent, or released, is still so. */
  ghost predicate Cleared(store: Store, h: Key, rank: nat) {
    && (rank >= 1 ==> Own(h, InternalHost) !in store)
    && (rank >= 2 ==> Listed(store, h, InternalPage) == {})
    && (rank >= 3 ==> Listed(store, h, InternalTranslation) == {})
    && (rank >= 4 ==> Own(h, Deployment) !in store)
    && (rank >= 5 ==> !Held(store, Binding(h)))
    && (rank >= 6 ==> !Held(store, Account(h)))
  }

  /** What a creating pass at index `k` has ensured is still so. */
  ghost predicate Secured(store: Store, h: Key, k: nat) {
    (k >= 2 ==> Held(store, Account(h))) && (k >= 3 ==> Held(store, Binding(h)))
  }

  ghost predicate Prefix(h: Key, pre: seq<Key>, k: nat) {
    && (forall key :: key in pre ==> NamedAfter(h, key))
    && (pre != [] ==> k == 0) && k < FIXED
  }

  ghost predicate CreatingShape(store: Store, h: Key, stage: Stage, clock: nat) {
    match stage
    case Ensuring(pre, k) => Prefix(h, pre, k) && Secured(store, h, k)
    case Writing(pre, k, found) =>
      && Prefix(h, pre, k) && Secured(store, h, k)
      && (found.Some? ==>
            var key := NextKey(h, pre, k);
            && Faithful(store, key, found.value, clock)
            && (found.value.held && (key == Account(h) || key == Binding(h)) ==> Held(store, key)))
    case _ => true
  }

  /** The host of a pass that does more than add the finalizer is there and keeps the finalizer. */
  ghost predicate PassShape(store: Store, clock: nat, h: Key, p: Pass) {
    && h.kind == Host && h.name != ""
    && Faithful(store, h, p.host, clock)
    && (Active(p.stage) ==> Held(store, h) && store[h].uid == p.host.uid)
    && (Tearing(p.stage) ==> store[h].marked && Cleared(store, h, Rank(p.stage)))
    && CreatingShape(store, h, p.stage, clock)
  }

  /** The host that an internal object belongs to. */
  function HostOf(store: Store, key: Key): Key
    requires key in store
  {
    Key(Host, key.ns,
        if key.kind == InternalPage || key.kind == InternalTranslation then store[key].hostRef else key.name)
  }

  predicate Internal(kind: Kind) {
    kind == InternalHost || kind == InternalPage || kind == InternalTranslation || kind == Deployment
  }

  /** Every internal object is controlled by the host it belongs to, which still carries the
      finalizer; a deployment's permissions are in place. */
  ghost predicate Owned(store: Store, key: Key)
    requires key in store
  {
    Internal(key.kind) ==>
      var h := HostOf(store, key);
      && h.name != "" && Held(store, h) && store[key].owner == Some(store[h].uid)
      && (key.kind == Deployment ==> Held(store, Account(h)) && Held(store, Binding(h)))
  }

  ghost predicate AllOwned(store: Store) {
    forall key :: key in store ==> Owned(store, key)
  }

  ghost predicate NamedHosts(store: Store) {
    forall h :: h in store && h.kind == Host ==> h.name != ""
  }

  ghost predicate Inv(s: State) {
    && Versions(s) && DistinctBindings(s.store) && NamedHosts(s.store) && AllOwned(s.store)
    && forall h :: h in s.passes ==> PassShape(s.store, s.clock, h, s.passes[h])
  }

  // ---------- what one write may change ----------

  /** A step that writes at most `x`, keeping its uid if it was there before. */
  ghost predicate OneWrite(s: State, t: State, x: Key) {
    && s.store - {x} == t.store - {x} && t.clock == s.clock + 1 && t.uids >= s.uids
    && (x in t.store && x in s.store ==>
          && t.store[x].uid == s.store[x].uid
          && (t.store[x] == s.store[x] || t.store[x].rv == s.clock)
          && (Persists(s.store[x]) ==> Persists(t.store[x])))
    && (x in t.store && x !in s.store ==>
          t.store[x].uid == s.uids < t.uids && t.store[x].rv == s.clock && !t.store[x].marked)
  }

  lemma Elsewhere(s: State, t: State, x: Key, y: Key)
    requires s.store - {x} == t.store - {x} && y != x
    ensures y in s.store <==> y in t.store
    ensures y in s.store ==> s.store[y] == t.store[y]
  {
    assert y in s.store <==> y in s.store - {x};
    assert y in t.store <==> y in t.store - {x};
    if y in s.store { assert (s.store - {x})[y] == (t.store - {x})[y]; }
  }

  lemma VersionsKept(s: State, t: State, x: Key)
    requires Versions(s) && OneWrite(s, t, x)
    ensures Versions(t)
  {
    forall k | k in t.store
      ensures t.store[k].uid < t.uids && t.store[k].rv < t.clock && Persists(t.store[k])
      ensures t.store[k].uid == s.uids || (k in s.store && t.store[k].uid == s.store[k].uid)
      ensures t.store[k].uid == s.uids ==> k == x
    {
      if k != x { Elsewhere(s, t, x, k); }
    }
  }

  lemma FaithfulKept(s: State, t: State, x: Key, key: Key, seen: Obj)
    requires OneWrite(s, t, x) && Faithful(s.store, key, seen, s.clock)
    ensures Faithful(t.store, key, seen, t.clock)
  {
    if key != x { Elsewhere(s, t, x, key); }
  }

  lemma CreatingKept(s: State, t: State, x: Key, g: Key, stage: Stage)
    requires OneWrite(s, t, x) && CreatingShape(s.store, g, stage, s.clock)
    requires forall y :: y in {Account(g), Binding(g)} && Held(s.store, y) ==> Held(t.store, y)
    ensures CreatingShape(t.store, g, stage, t.clock)
  {
    if stage.Writing? && stage.found.Some? {
      FaithfulKept(s, t, x, NextKey(g, stage.pre, stage.k), stage.found.value);
    }
  }

  /** A pass over `g` keeps its shape when a write leaves its host and what it relies on alone. */
  lemma PassKept(s: State, t: State, x: Key, g: Key, p: Pass)
    requires OneWrite(s, t, x) && PassShape(s.store, s.clock, g, p)
    requires Active(p.stage) ==> Held(t.store, g) && (s.store[g].marked ==> t.store[g].marked)
    requires p.stage.Ensuring? || p.stage.Writing? ==>
      forall y :: y in {Account(g), Binding(g)} && Held(s.store, y) ==> Held(t.store, y)
    requires Tearing(p.stage) ==> Cleared(t.store, g, Rank(p.stage))
    ensures PassShape(t.store, t.clock, g, p)
  {
    FaithfulKept(s, t, x, g, p.host);
    if g != x { Elsewhere(s, t, x, g); }
    if p.stage.Ensuring? || p.stage.Writing? {
      CreatingKept(s, t, x, g, p.stage);
    }
  }

  // ---------- writes that take nothing away ----------

  /** The write creates nothing, keeps owner and host reference, loses no host finalizer, gains
      none but on a host, and does not undo a deletion mark. */
  ghost predicate Benign(s: State, t: State, x: Key) {
    && OneWrite(s, t, x)
    && (x in t.store ==>
          && x in s.store
          && t.store[x].owner == s.store[x].owner && t.store[x].hostRef == s.store[x].hostRef
          && (t.store[x].held ==> s.store[x].held || x.kind == Host)
          && (s.store[x].marked ==> t.store[x].marked))
    && (Held(s.store, x) ==> Held(t.store, x))
  }

  lemma BenignHeld(s: State, t: State, x: Key, y: Key)
    requires Benign(s, t, x)
    ensures Held(s.store, y) ==> Held(t.store, y)
    ensures y in t.store ==> y in s.store && t.store[y].uid == s.store[y].uid
    ensures y in t.store ==> t.store[y].owner == s.store[y].owner && t.store[y].hostRef == s.store[y].hostRef
    ensures y.kind != Host && Held(t.store, y) ==> Held(s.store, y)
    ensures y in t.store && s.store[y].marked ==> t.store[y].marked
  {
    if y != x { Elsewhere(s, t, x, y); }
  }

  lemma BenignOwned(s: State, t: State, x: Key)
    requires Benign(s, t, x) && AllOwned(s.store)
    ensures AllOwned(t.store)
  {
    forall key | key in t.store ensures Owned(t.store, key) {
      BenignHeld(s, t, x, key);
      assert Owned(s.store, key);
      var h := HostOf(s.store, key);
      BenignHeld(s, t, x, h);
      BenignHeld(s, t, x, Account(h));
      BenignHeld(s, t, x, Binding(h));
    }
  }

  lemma BenignListed(s: State, t: State, x: Key, h: Key, kind: Kind)
    requires Benign(s, t, x)
    ensures Listed(t.store, h, kind) <= Listed(s.store, h, kind)
  {
    forall key | key in Listed(t.store, h, kind) ensures key in Listed(s.store, h, kind) {
      BenignHeld(s, t, x, key);
    }
  }

  lemma BenignCleared(s: State, t: State, x: Key, h: Key, rank: nat)
    requires Benign(s, t, x) && Cleared(s.store, h, rank)
    ensures Cleared(t.store, h, rank)
  {
    BenignListed(s, t, x, h, InternalPage);
    BenignListed(s, t, x, h, InternalTranslation);
    BenignHeld(s, t, x, Own(h, InternalHost));
    BenignHeld(s, t, x, Own(h, Deployment));
    BenignHeld(s, t, x, Binding(h));
    BenignHeld(s, t, x, Account(h));
  }

  lemma BenignPass(s: State, t: State, x: Key, g: Key, p: Pass)
    requires Benign(s, t, x) && PassShape(s.store, s.clock, g, p)
    ensures PassShape(t.store, t.clock, g, p)
  {
    BenignHeld(s, t, x, g);
    BenignHeld(s, t, x, Account(g));
    BenignHeld(s, t, x, Binding(g));
    if Tearing(p.stage) { BenignCleared(s, t, x, g, Rank(p.stage)); }
    PassKept(s, t, x, g, p);
  }

  ghost predicate Hosts(store: Store) {
    DistinctBindings(store) && NamedHosts(store)
  }

  lemma HostsKept(s: State, t: State, x: Key)
    requires OneWrite(s, t, x) && Hosts(s.store) && (x in t.store && x.kind == Host ==> x in s.store)
    ensures Hosts(t.store)
  {
    forall y | y in t.store && y.kind == Host ensures y in s.store {
      if y != x { Elsewhere(s, t, x, y); }
    }
  }

  // ---------- a create or update by the pass over h ----------

  /** `x` is one of the objects that the pass over `h` creates or updates. */
  ghost predicate Creates(h: Key, x: Key) {
    NamedAfter(h, x) || exists k: nat :: k < FIXED && x == Fixed(h, k)
  }

  /** The write left `x` controlled by `h`, and it was not controlled by another host before. */
  ghost predicate EnsureWrite(s: State, t: State, h: Key, x: Key) {
    && OneWrite(s, t, x) && h.kind == Host && Held(s.store, h) && Creates(h, x)
    && x in t.store
    && (x.kind != RoleBinding ==> t.store[x].owner == Some(s.store[h].uid))
    && (x.kind == InternalPage || x.kind == InternalTranslation ==> t.store[x].hostRef == h.name)
    && (Held(s.store, x) ==> Held(t.store, x))
    && (x == Account(h) || x == Binding(h) ==> Held(t.store, x))
  }

  lemma CreatesOwnKinds(h: Key, x: Key)
    requires Creates(h, x)
    ensures x.kind != Host && (x.kind != RoleBinding ==> x.ns == h.ns)
    ensures x.kind == RoleBinding ==> x == Binding(h)
    ensures x.kind in {InternalHost, Deployment, ServiceAccount} ==> x == Own(h, x.kind)
  {
  }

  lemma EnsureElsewhere(s: State, t: State, h: Key, x: Key, y: Key)
    requires EnsureWrite(s, t, h, x)
    ensures Held(s.store, y) ==> Held(t.store, y)
    ensures y != x ==> (y in s.store <==> y in t.store)
    ensures y != x && y in s.store ==> s.store[y] == t.store[y]
    ensures y in s.store ==> y in t.store && s.store[y].uid == t.store[y].uid
  {
    if y != x { Elsewhere(s, t, x, y); }
  }

  lemma EnsureOwned(s: State, t: State, h: Key, x: Key)
    requires EnsureWrite(s, t, h, x) && AllOwned(s.store) && Hosts(s.store)
    requires x.kind == Deployment ==> Held(s.store, Account(h)) && Held(s.store, Binding(h))
    ensures AllOwned(t.store)
  {
    CreatesOwnKinds(h, x);
    EnsureElsewhere(s, t, h, x, h);
    forall y | y in t.store ensures Owned(t.store, y) {
      EnsureElsewhere(s, t, h, x, y);
      if y == x {
        if Internal(x.kind) {
          assert HostOf(t.store, x) == h;
          EnsureElsewhere(s, t, h, x, Account(h));
          EnsureElsewhere(s, t, h, x, Binding(h));
        }
      } else {
        assert Owned(s.store, y);
        var g := HostOf(s.store, y);
        EnsureElsewhere(s, t, h, x, g);
        EnsureElsewhere(s, t, h, x, Account(g));
        EnsureElsewhere(s, t, h, x, Binding(g));
      }
    }
  }

  lemma EnsureListed(s: State, t: State, h: Key, x: Key, g: Key, kind: Kind)
    requires EnsureWrite(s, t, h, x) && g.kind == Host && g != h
    requires kind == InternalPage || kind == InternalTranslation
    ensures Listed(t.store, g, kind) <= Listed(s.store, g, kind)
  {
    CreatesOwnKinds(h, x);
    forall y | y in Listed(t.store, g, kind) ensures y in Listed(s.store, g, kind) {
      EnsureElsewhere(s, t, h, x, y);
    }
  }

  /** A pass over another host sees nothing appear that it found absent. */
  lemma EnsureCleared(s: State, t: State, h: Key, x: Key, g: Key, rank: nat)
    requires EnsureWrite(s, t, h, x) && DistinctBindings(s.store) && g.kind == Host && g != h && g in s.store
    requires Cleared(s.store, g, rank)
    ensures Cleared(t.store, g, rank)
  {
    CreatesOwnKinds(h, x);
    assert Binding(g) != Binding(h);
    EnsureListed(s, t, h, x, g, InternalPage);
    EnsureListed(s, t, h, x, g, InternalTranslation);
    EnsureElsewhere(s, t, h, x, Own(g, InternalHost));
    EnsureElsewhere(s, t, h, x, Own(g, Deployment));
    EnsureElsewhere(s, t, h, x, Binding(g));
    EnsureElsewhere(s, t, h, x, Account(g));
  }

  lemma EnsureOtherPass(s: State, t: State, h: Key, x: Key, g: Key, p: Pass)
    requires EnsureWrite(s, t, h, x) && DistinctBindings(s.store) && g != h
    requires PassShape(s.store, s.clock, g, p)
    ensures PassShape(t.store, t.clock, g, p)
  {
    CreatesOwnKinds(h, x);
    EnsureElsewhere(s, t, h, x, g);
    EnsureElsewhere(s, t, h, x, Account(g));
    EnsureElsewhere(s, t, h, x, Binding(g));
    if Tearing(p.stage) { EnsureCleared(s, t, h, x, g, Rank(p.stage)); }
    PassKept(s, t, x, g, p);
  }

  // ---------- a teardown pass removes a finalizer ----------

  /** The pass over `h` takes the host finalizer off `x`: one of its two RBAC objects once its
      deployment is gone, or the host itself at the end. */
  ghost predicate Unhold(s: State, t: State, h: Key, x: Key) {
    && OneWrite(s, t, x) && h.kind == Host && h in s.store && x in s.store
    && (x in t.store ==>
          t.store[x] == s.store[x].(held := false, rv := s.clock))
    && ((x in {Binding(h), Account(h)} && Cleared(s.store, h, 4)) || (x == h && Cleared(s.store, h, 6)))
  }

  lemma UnholdKinds(s: State, t: State, h: Key, x: Key)
    requires Unhold(s, t, h, x)
    ensures x.kind == RoleBinding || x.kind == ServiceAccount || x == h
    ensures x.kind == RoleBinding ==> x == Binding(h)
    ensures x.kind == ServiceAccount ==> x == Account(h)
  {
  }

  lemma UnholdOwned(s: State, t: State, h: Key, x: Key)
    requires Unhold(s, t, h, x) && AllOwned(s.store) && DistinctBindings(s.store) && NamedHosts(s.store)
    ensures AllOwned(t.store)
  {
    UnholdKinds(s, t, h, x);
    forall y | y in t.store ensures Owned(t.store, y) {
      if y != x && Internal(y.kind) {
        Elsewhere(s, t, x, y);
        assert Owned(s.store, y);
        var g := HostOf(s.store, y);
        if g == h {
          HostsInternal(s.store, h, y);
          assert false;
        } else {
          assert Binding(g) != Binding(h);
          Elsewhere(s, t, x, g);
          Elsewhere(s, t, x, Account(g));
          Elsewhere(s, t, x, Binding(g));
        }
      }
    }
  }

  /** The internal objects of a host are its internal host, its deployment, and what the index
      lists for it. */
  lemma HostsInternal(store: Store, h: Key, y: Key)
    requires y in store && Internal(y.kind) && HostOf(store, y) == h && h.name != ""
    ensures y == Own(h, InternalHost) || y == Own(h, Deployment)
         || y in Listed(store, h, InternalPage) || y in Listed(store, h, InternalTranslation)
  {
  }

  lemma UnholdCleared(s: State, t: State, h: Key, x: Key, g: Key, rank: nat)
    requires Unhold(s, t, h, x) && Cleared(s.store, g, rank)
    ensures Cleared(t.store, g, rank)
  {
    UnholdKinds(s, t, h, x);
    forall y | y in t.store
      ensures y in s.store && t.store[y].hostRef == s.store[y].hostRef && (t.store[y].held ==> s.store[y].held)
    {
      if y != x { Elsewhere(s, t, x, y); }
    }
    assert Listed(t.store, g, InternalPage) <= Listed(s.store, g, InternalPage);
    assert Listed(t.store, g, InternalTranslation) <= Listed(s.store, g, InternalTranslation);
  }

  lemma UnholdOtherPass(s: State, t: State, h: Key, x: Key, g: Key, p: Pass)
    requires Unhold(s, t, h, x) && DistinctBindings(s.store) && g != h && PassShape(s.store, s.clock, g, p)
    ensures PassShape(t.store, t.clock, g, p)
  {
    UnholdKinds(s, t, h, x);
    if Active(p.stage) {
      assert Binding(g) != Binding(h);
      Elsewhere(s, t, x, g);
      Elsewhere(s, t, x, Account(g));
      Elsewhere(s, t, x, Binding(g));
      if Tearing(p.stage) { UnholdCleared(s, t, h, x, g, Rank(p.stage)); }
    }
    PassKept(s, t, x, g, p);
  }

  // ---------- the steps ----------

  ghost predicate AddsHost(s: State, t: State, h: Key) {
    OneWrite(s, t, h) && h.kind == Host && h !in s.store && h in t.store
  }

  lemma AddHostOwned(s: State, t: State, h: Key)
    requires AddsHost(s, t, h) && AllOwned(s.store)
    ensures AllOwned(t.store)
  {
    forall y | y in t.store ensures Owned(t.store, y) {
      if y != h {
        Elsewhere(s, t, h, y);
        assert Owned(s.store, y);
        var g := HostOf(s.store, y);
        if Internal(y.kind) { Elsewhere(s, t, h, g); }
        Elsewhere(s, t, h, Account(g));
        Elsewhere(s, t, h, Binding(g));
      }
    }
  }

  lemma AddHostListed(s: State, t: State, h: Key, g: Key, kind: Kind)
    requires AddsHost(s, t, h) && kind != Host
    ensures Listed(t.store, g, kind) == Listed(s.store, g, kind)
  {
    forall y | y != h ensures y in Listed(t.store, g, kind) <==> y in Listed(s.store, g, kind) {
      Elsewhere(s, t, h, y);
    }
  }

  lemma AddHostPass(s: State, t: State, h: Key, g: Key, p: Pass)
    requires AddsHost(s, t, h) && PassShape(s.store, s.clock, g, p)
    ensures PassShape(t.store, t.clock, g, p)
  {
    if Active(p.stage) {
      Elsewhere(s, t, h, g);
      Elsewhere(s, t, h, Account(g));
      Elsewhere(s, t, h, Binding(g));
    }
    if Tearing(p.stage) {
      AddHostListed(s, t, h, g, InternalPage);
      AddHostListed(s, t, h, g, InternalTranslation);
      Elsewhere(s, t, h, Own(g, InternalHost));
      Elsewhere(s, t, h, Own(g, Deployment));
    }
    hide Listed;
    PassKept(s, t, h, g, p);
  }

  lemma AddHostKeeps(s: State, h: Key)
    requires Inv(s) && Enabled(s, AddHost(h))
    ensures Inv(Next(s, AddHost(h)))
  {
    hide PassShape, AllOwned;
    var t := Next(s, AddHost(h));
    assert AddsHost(s, t, h);
    VersionsKept(s, t, h);
    AddHostOwned(s, t, h);
    forall g | g in t.passes ensures PassShape(t.store, t.clock, g, t.passes[g]) {
      AddHostPass(s, t, h, g, s.passes[g]);
    }
  }

  /** A benign write keeps all invariants, for the passes that stay as they are. */
  lemma BenignKeeps(s: State, t: State, x: Key)
    requires Inv(s) && Benign(s, t, x)
    ensures Versions(t) && Hosts(t.store) && AllOwned(t.store)
    ensures forall g :: g in s.passes ==> PassShape(t.store, t.clock, g, s.passes[g])
  {
    VersionsKept(s, t, x);
    HostsKept(s, t, x);
    BenignOwned(s, t, x);
    forall g | g in s.passes ensures PassShape(t.store, t.clock, g, s.passes[g]) {
      BenignPass(s, t, x, g, s.passes[g]);
    }
  }

  lemma EnvironmentIsBenign(s: State, a: Action, x: Key)
    requires Inv(s) && Enabled(s, a)
    requires match a
             case Touch(k) => x == k
             case AddForeign(k, _) => x == k
             case DropForeign(k, _) => x == k
             case UserDelete(k) => x == k
             case Begin(h, _) => x == h
             case Abort(h) => x == h
             case End(h, _) => x == h
             case _ => false
    ensures Benign(s, Next(s, a), x)
  {
    hide PassShape, AllOwned, DistinctBindings, NamedHosts, CallStep, FirstStage, Total;
  }

  lemma EnvironmentKeeps(s: State, a: Action)
    requires Inv(s) && Enabled(s, a) && !a.AddHost? && !a.Call?
    ensures Inv(Next(s, a))
  {
    hide Benign, PassShape, AllOwned, CallStep, Put, Delete, FirstStage, Total;
    var x := match a case Touch(k) => k case AddForeign(k, _) => k case DropForeign(k, _) => k
                     case UserDelete(k) => k case Begin(h, _) => h case Abort(h) => h case End(h, _) => h
                     case _ => Key(Host, "", "");
    var t := Next(s, a);
    EnvironmentIsBenign(s, a, x);
    BenignKeeps(s, t, x);
    if a.Begin? {
      assert t.store == s.store;
      BeginShape(s, a.h, a.pre, t.passes[a.h].before);
    } else if a.Abort? {
      FailedShape(t.store, t.clock, a.h, s.passes[a.h]);
    }
  }

  lemma BeginShape(s: State, h: Key, pre: seq<Key>, before: nat)
    requires Inv(s) && Enabled(s, Begin(h, pre))
    ensures PassShape(s.store, s.clock + 1, h, Pass(s.store[h], FirstStage(s.store[h], pre), before))
  {
  }

  /** Stages whose call takes no finalizer away and creates nothing. */
  predicate Mild(stage: Stage) {
    !stage.Writing? && !stage.PutBinding? && !stage.PutAccount? && !stage.Release? && !stage.Done?
  }

  function MildTarget(h: Key, stage: Stage): Key {
    match stage
    case DeleteInternalHost => Own(h, InternalHost)
    case DeletePages(left) => if left != [] then left[0] else h
    case DeleteTranslations(left) => if left != [] then left[0] else h
    case DeleteDeployment => Own(h, Deployment)
    case _ => h
  }

  lemma MildIsBenign(s: State, h: Key, listing: seq<Key>, changed: bool)
    requires Inv(s) && Enabled(s, Call(h, listing, changed)) && Mild(s.passes[h].stage)
    ensures Benign(s, Next(s, Call(h, listing, changed)), MildTarget(h, s.passes[h].stage))
  {
    HostKind(s, h);
    hide Inv, CallStep, IsListing, Delete, MildTarget, Mild;
    var t, x := Next(s, Call(h, listing, changed)), MildTarget(h, s.passes[h].stage);
    MildStore(s, h, listing, changed);
    if t.store != s.store && x in s.store && t.store == Delete(s.store, x, s.clock) {
      DeleteIsBenign(s, t, x);
    }
  }

  /** A mild call leaves the store alone, deletes its target, or admits the host. */
  lemma MildStore(s: State, h: Key, listing: seq<Key>, changed: bool)
    requires h in s.passes && Mild(s.passes[h].stage)
    ensures var t, x := CallStep(s, h, listing, changed), MildTarget(h, s.passes[h].stage);
      && t.uids == s.uids && t.clock == s.clock
      && (|| t.store == s.store
          || (x in s.store && t.store == Delete(s.store, x, s.clock))
          || (x == h && h in s.store && !s.store[h].marked
                && t.store == s.store[h := s.store[h].(held := true, rv := s.clock)]))
  {
    hide Ensure, Listed, Delete;
  }

  lemma DeleteIsBenign(s: State, t: State, x: Key)
    requires x in s.store && t.store == Delete(s.store, x, s.clock) && t.clock == s.clock + 1 && t.uids == s.uids
    ensures Benign(s, t, x)
  {
  }

  lemma HostKind(s: State, h: Key)
    requires Inv(s) && h in s.passes
    ensures h.kind == Host
  {
    assert PassShape(s.store, s.clock, h, s.passes[h]);
  }

  lemma PassOf(s: State, h: Key)
    requires Inv(s) && h in s.passes
    ensures PassShape(s.store, s.clock, h, s.passes[h])
  {
  }

  lemma TearingCleared(s: State, h: Key)
    requires Inv(s) && h in s.passes && Tearing(s.passes[h].stage)
    ensures Cleared(s.store, h, Rank(s.passes[h].stage))
  {
    PassOf(s, h);
  }

  /** A lookup that finds a stage empty clears it. */
  lemma MildOwnShape(s: State, store: Store, clock: nat, h: Key, p: Pass, q: Pass)
    requires PassShape(store, clock, h, p) && PassShape(s.store, s.clock, h, p) && q.host == p.host
    requires Mild(p.stage) && s.clock < clock
    requires Tearing(p.stage) ==> Cleared(store, h, Rank(q.stage))
    requires q.stage.Done? || (Tearing(p.stage) && Tearing(q.stage))
    ensures PassShape(store, clock, h, q)
  {
    hide Cleared;
  }

  /** What a teardown pass at `rank` looks for is absent. */
  ghost predicate NextAbsent(store: Store, h: Key, rank: nat) {
    match rank
    case 0 => Own(h, InternalHost) !in store
    case 1 => Listed(store, h, InternalPage) == {}
    case 2 => Listed(store, h, InternalTranslation) == {}
    case 3 => Own(h, Deployment) !in store
    case 4 => !Held(store, Binding(h))
    case 5 => !Held(store, Account(h))
    case _ => true
  }

  lemma ClearNext(store: Store, h: Key, rank: nat)
    requires Cleared(store, h, rank) && NextAbsent(store, h, rank)
    ensures Cleared(store, h, rank + 1)
  {
  }

  predicate Looking(stage: Stage) {
    || stage.GetInternalHost? || stage.ListPages? || stage.ListTranslations? || stage.GetDeployment?
    || stage.GetBinding? || stage.GetAccount?
  }

  /** A lookup goes on to the next rank exactly when it finds nothing. */
  lemma LookupAdvances(s: State, h: Key, listing: seq<Key>, changed: bool)
    requires h in s.passes && Looking(s.passes[h].stage)
    ensures var t, rank := CallStep(s, h, listing, changed), Rank(s.passes[h].stage);
      && h in t.passes && t.passes[h].host == s.passes[h].host && t.store == s.store
      && (t.passes[h].stage.Done? || Tearing(t.passes[h].stage))
      && (NextAbsent(s.store, h, rank) ==> Rank(t.passes[h].stage) == rank + 1)
      && (!NextAbsent(s.store, h, rank) ==> t.passes[h].stage.Done? || Rank(t.passes[h].stage) == rank)
  {
    hide Listed, Ensure, CallDelete, CallRemoveFinalizer, Binding;
  }

  lemma DeletingStays(s: State, h: Key, listing: seq<Key>, changed: bool)
    requires h in s.passes && Mild(s.passes[h].stage) && Tearing(s.passes[h].stage) && !Looking(s.passes[h].stage)
    ensures var t := CallStep(s, h, listing, changed);
      && h in t.passes && t.passes[h].host == s.passes[h].host
      && (t.passes[h].stage.Done? ||
          (Tearing(t.passes[h].stage) && Rank(t.passes[h].stage) == Rank(s.passes[h].stage)))
  {
    hide Listed, Ensure, Delete, CallRemoveFinalizer;
  }

  lemma MildClears(s: State, h: Key, listing: seq<Key>, changed: bool)
    requires Inv(s) && Enabled(s, Call(h, listing, changed))
    requires Mild(s.passes[h].stage) && Tearing(s.passes[h].stage)
    ensures var t := CallStep(s, h, listing, changed);
      && h in t.passes && t.passes[h].host == s.passes[h].host
      && (t.passes[h].stage.Done? || Tearing(t.passes[h].stage))
      && (Rank(t.passes[h].stage) > Rank(s.passes[h].stage) ==>
            t.store == s.store && Cleared(s.store, h, Rank(t.passes[h].stage)))
  {
    hide Inv, CallStep, Cleared, NextAbsent, IsListing, Listed;
    var p := s.passes[h];
    TearingCleared(s, h);
    if Looking(p.stage) {
      LookupAdvances(s, h, listing, changed);
      if NextAbsent(s.store, h, Rank(p.stage)) {
        ClearNext(s.store, h, Rank(p.stage));
      }
    } else {
      DeletingStays(s, h, listing, changed);
    }
  }

  lemma CallTouchesOnePass(s: State, h: Key, listing: seq<Key>, changed: bool)
    requires h in s.passes && !s.passes[h].stage.Done?
    ensures var t := CallStep(s, h, listing, changed);
      h in t.passes && t.passes - {h} == s.passes - {h}
  {
    hide Ensure, Delete, Put, Listed;
    var p := s.passes[h];
    if p.stage.Writing? && (p.stage.pre != [] || p.stage.k < FIXED) {
      EnsureLeavesPasses(s, h, p, listing, changed);
    }
  }

  lemma EnsureLeavesPasses(s: State, h: Key, p: Pass, listing: seq<Key>, changed: bool)
    requires p.stage.Writing? && (p.stage.pre != [] || p.stage.k < FIXED)
    ensures Ensure(s, h, p, NextKey(h, p.stage.pre, p.stage.k), p.stage.found, changed).0.passes == s.passes
  {
  }

  lemma MildShape(s: State, t: State, h: Key, listing: seq<Key>, changed: bool)
    requires Inv(s) && Enabled(s, Call(h, listing, changed)) && Mild(s.passes[h].stage)
    requires t == Next(s, Call(h, listing, changed))
    requires PassShape(t.store, t.clock, h, s.passes[h])
    ensures h in t.passes && PassShape(t.store, t.clock, h, t.passes[h])
  {
    var p := s.passes[h];
    PassOf(s, h);
    hide Inv, Cleared, Listed, IsListing, Ensure, Delete;
    if !Tearing(p.stage) {
      NotTearingShape(s, t, h, listing, changed);
    } else {
      MildClears(s, h, listing, changed);
      hide CallStep;
      var q := t.passes[h];
      if q.stage.Done? || Rank(q.stage) <= Rank(p.stage) {
        ClearedLower(t.store, h, Rank(p.stage), Rank(q.stage));
      }
      MildOwnShape(s, t.store, t.clock, h, p, q);
    }
  }

  lemma NotTearingShape(s: State, t: State, h: Key, listing: seq<Key>, changed: bool)
    requires h in s.passes && Mild(s.passes[h].stage) && !Tearing(s.passes[h].stage)
    requires Enabled(s, Call(h, listing, changed)) && t == Next(s, Call(h, listing, changed))
    requires PassShape(t.store, t.clock, h, s.passes[h]) && PassShape(s.store, s.clock, h, s.passes[h])
    requires Versions(s)
    ensures h in t.passes && PassShape(t.store, t.clock, h, t.passes[h])
  {
    hide Listed, Ensure, Delete, NamedAfter, IsListing;
  }

  lemma ClearedLower(store: Store, h: Key, rank: nat, lower: nat)
    requires Cleared(store, h, rank) && lower <= rank
    ensures Cleared(store, h, lower)
  {
  }

  lemma CallOthers(s: State, h: Key, listing: seq<Key>, changed: bool)
    requires h in s.passes && !s.passes[h].stage.Done?
    ensures var t := CallStep(s, h, listing, changed);
      forall g :: g != h ==> (g in t.passes <==> g in s.passes) && (g in s.passes ==> t.passes[g] == s.passes[g])
  {
    CallTouchesOnePass(s, h, listing, changed);
    hide CallStep;
    var t := CallStep(s, h, listing, changed);
    forall g | g != h ensures (g in t.passes <==> g in s.passes) && (g in s.passes ==> t.passes[g] == s.passes[g]) {
      assert g in t.passes <==> g in t.passes - {h};
      assert g in s.passes <==> g in s.passes - {h};
      if g in s.passes { assert (t.passes - {h})[g] == (s.passes - {h})[g]; }
    }
  }

  lemma MildKeeps(s: State, h: Key, listing: seq<Key>, changed: bool)
    requires Inv(s) && Enabled(s, Call(h, listing, changed)) && Mild(s.passes[h].stage)
    ensures Inv(Next(s, Call(h, listing, changed)))
  {
    var t := Next(s, Call(h, listing, changed));
    MildIsBenign(s, h, listing, changed);
    BenignKeeps(s, t, MildTarget(h, s.passes[h].stage));
    MildShape(s, t, h, listing, changed);
    CallOthers(s, h, listing, changed);
  }

  // ---------- Writing ----------

  lemma EnsureIsEnsureWrite(s: State, h: Key, changed: bool, u: State, x: Key)
    requires Inv(s) && h in s.passes && s.passes[h].stage.Writing?
    requires x == NextKey(h, s.passes[h].stage.pre, s.passes[h].stage.k)
    requires Ensure(s, h, s.passes[h], x, s.passes[h].stage.found, changed) == (u, true)
    ensures u.passes == s.passes && u.clock == s.clock
    ensures u.store == s.store || EnsureWrite(s, u.(clock := s.clock + 1), h, x)
    ensures x == Account(h) || x == Binding(h) ==> Held(u.store, x)
    ensures x.kind == Deployment ==> Held(s.store, Account(h)) && Held(s.store, Binding(h))
  {
    var p := s.passes[h];
    PassOf(s, h);
    assert x in s.store ==> Persists(s.store[x]);
    hide Inv, NamedAfter, Ensure, Cleared, Persists;
    if p.stage.pre == [] {
      assert x == Fixed(h, p.stage.k);
    } else {
      NamedKinds(h, x);
    }
    assert Creates(h, x);
    EnsureCall(s, h, p, changed, u, x);
  }

  lemma NamedKinds(h: Key, x: Key)
    requires NamedAfter(h, x)
    ensures x.kind == InternalPage || x.kind == InternalTranslation
  {
  }

  lemma EnsureCall(s: State, h: Key, p: Pass, changed: bool, u: State, x: Key)
    requires p.stage.Writing? && Ensure(s, h, p, x, p.stage.found, changed) == (u, true)
    requires h.kind == Host && Held(s.store, h) && s.store[h].uid == p.host.uid && Creates(h, x)
    requires x in s.store ==> Persists(s.store[x])
    requires p.stage.found.Some? ==>
               && Faithful(s.store, x, p.stage.found.value, s.clock)
               && (p.stage.found.value.held && (x == Account(h) || x == Binding(h)) ==> Held(s.store, x))
    ensures u.passes == s.passes && u.clock == s.clock
    ensures u.store == s.store || EnsureWrite(s, u.(clock := s.clock + 1), h, x)
    ensures x == Account(h) || x == Binding(h) ==> Held(u.store, x)
  {
    CreatesOwnKinds(h, x);
    hide Creates;
  }

  lemma WritingFails(s: State, h: Key, listing: seq<Key>, changed: bool)
    requires Inv(s) && Enabled(s, Call(h, listing, changed)) && s.passes[h].stage.Writing?
    requires var p := s.passes[h];
             Ensure(s, h, p, NextKey(h, p.stage.pre, p.stage.k), p.stage.found, changed) == (s, false)
    ensures Inv(Next(s, Call(h, listing, changed)))
  {
    var t := Next(s, Call(h, listing, changed));
    assert Benign(s, t, h);
    BenignKeeps(s, t, h);
    assert t.passes == s.passes[h := s.passes[h].(stage := Done(Failed))];
  }

  lemma EnsureFailsQuietly(s: State, h: Key, p: Pass, key: Key, found: Option<Obj>, changed: bool)
    ensures !Ensure(s, h, p, key, found, changed).1 ==> Ensure(s, h, p, key, found, changed).0 == s
  {
  }

  /** After a create or update the next object is due, and the RBAC objects stay secured. */
  lemma AdvanceShape(s: State, t: State, h: Key, p: Pass, x: Key)
    requires PassShape(s.store, s.clock, h, p) && p.stage.Writing? && x == NextKey(h, p.stage.pre, p.stage.k)
    requires PassShape(t.store, t.clock, h, p)
    requires x == Account(h) || x == Binding(h) ==> Held(t.store, x)
    ensures PassShape(t.store, t.clock, h, p.(stage := Advance(p.stage.pre, p.stage.k)))
  {
    var k := p.stage.k;
    if p.stage.pre == [] {
      assert x == Fixed(h, k);
    }
  }

  lemma EnsureOwnPass(s: State, t: State, h: Key, x: Key, p: Pass)
    requires EnsureWrite(s, t, h, x) && PassShape(s.store, s.clock, h, p) && p.stage.Writing?
    ensures PassShape(t.store, t.clock, h, p)
  {
    CreatesOwnKinds(h, x);
    EnsureElsewhere(s, t, h, x, h);
    EnsureElsewhere(s, t, h, x, Account(h));
    EnsureElsewhere(s, t, h, x, Binding(h));
    PassKept(s, t, x, h, p);
  }

  lemma EnsureWriteKeeps(s: State, v: State, h: Key, x: Key, p: Pass)
    requires Inv(s) && EnsureWrite(s, v, h, x) && h in s.passes && p == s.passes[h] && p.stage.Writing?
    requires x.kind == Deployment ==> Held(s.store, Account(h)) && Held(s.store, Binding(h))
    ensures Versions(v) && Hosts(v.store) && AllOwned(v.store)
    ensures forall g :: g in s.passes ==> PassShape(v.store, v.clock, g, s.passes[g])
  {
    hide PassShape, EnsureWrite;
    CreatesOwnKindsOf(s, v, h, x);
    VersionsKept(s, v, x);
    HostsKept(s, v, x);
    EnsureOwned(s, v, h, x);
    EnsureOwnPass(s, v, h, x, p);
    forall g | g in s.passes && g != h ensures PassShape(v.store, v.clock, g, s.passes[g]) {
      EnsureOtherPass(s, v, h, x, g, s.passes[g]);
    }
  }

  lemma CreatesOwnKindsOf(s: State, v: State, h: Key, x: Key)
    requires EnsureWrite(s, v, h, x)
    ensures x.kind != Host && OneWrite(s, v, x)
  {
    CreatesOwnKinds(h, x);
  }

  lemma WritingEffect(s: State, h: Key, listing: seq<Key>, changed: bool)
    requires Enabled(s, Call(h, listing, changed)) && s.passes[h].stage.Writing?
    requires s.passes[h].stage.pre != [] || s.passes[h].stage.k < FIXED
    ensures var p := s.passes[h];
      var (u, ok) := Ensure(s, h, p, NextKey(h, p.stage.pre, p.stage.k), p.stage.found, changed);
      var t := u.(clock := u.clock + 1, passes := s.passes[h := p.(stage := Advance(p.stage.pre, p.stage.k))]);
      ok ==> u.passes == s.passes && u.uids >= s.uids && Next(s, Call(h, listing, changed)) == t
  {
    var p := s.passes[h];
    EnsureLeavesPasses(s, h, p, listing, changed);
    EnsureKeepsUids(s, h, p, NextKey(h, p.stage.pre, p.stage.k), p.stage.found, changed);
    EnsureKeepsClock(s, h, p, NextKey(h, p.stage.pre, p.stage.k), p.stage.found, changed);
    hide Ensure;
  }

  lemma EnsureKeepsClock(s: State, h: Key, p: Pass, key: Key, found: Option<Obj>, changed: bool)
    ensures Ensure(s, h, p, key, found, changed).0.clock == s.clock
  {
  }

  lemma WritingKeeps(s: State, h: Key, listing: seq<Key>, changed: bool)
    requires Inv(s) && Enabled(s, Call(h, listing, changed)) && s.passes[h].stage.Writing?
    ensures Inv(Next(s, Call(h, listing, changed)))
  {
    var t, p := Next(s, Call(h, listing, changed)), s.passes[h];
    assert PassShape(s.store, s.clock, h, p);
    var x := NextKey(h, p.stage.pre, p.stage.k);
    var (u, ok) := Ensure(s, h, p, x, p.stage.found, changed);
    EnsureFailsQuietly(s, h, p, x, p.stage.found, changed);
    if !ok {
      WritingFails(s, h, listing, changed);
    } else {
      EnsureIsEnsureWrite(s, h, changed, u, x);
      WritingEffect(s, h, listing, changed);
      assert Next(s, Call(h, listing, changed)) == t;
      hide *;
      WritingDone(s, h, x, u, t);
    }
  }

  lemma WritingDone(s: State, h: Key, x: Key, u: State, t: State)
    requires Inv(s) && h in s.passes && s.passes[h].stage.Writing?
    requires x == NextKey(h, s.passes[h].stage.pre, s.passes[h].stage.k)
    requires u.passes == s.passes && u.clock == s.clock && u.uids >= s.uids
    requires u.store == s.store || EnsureWrite(s, u.(clock := s.clock + 1), h, x)
    requires x == Account(h) || x == Binding(h) ==> Held(u.store, x)
    requires x.kind == Deployment ==> Held(s.store, Account(h)) && Held(s.store, Binding(h))
    requires t == u.(clock := u.clock + 1,
                     passes := s.passes[h := s.passes[h].(stage := Advance(s.passes[h].stage.pre, s.passes[h].stage.k))])
    ensures Inv(t)
  {
    hide AllOwned, DistinctBindings, NamedHosts, EnsureWrite, PassShape;
    var p, v := s.passes[h], u.(clock := s.clock + 1);
    if u.store == s.store {
      assert Benign(s, v, h);
      BenignKeeps(s, v, h);
    } else {
      EnsureWriteKeeps(s, v, h, x, p);
    }
    AdvanceShape(s, v, h, p, x);
  }

  lemma EnsureKeepsUids(s: State, h: Key, p: Pass, key: Key, found: Option<Obj>, changed: bool)
    ensures Ensure(s, h, p, key, found, changed).0.uids >= s.uids
  {
  }

  // ---------- removing finalizers ----------

  predicate Unholding(stage: Stage) {
    stage.PutBinding? || stage.PutAccount? || stage.Release?
  }

  function UnholdTarget(h: Key, stage: Stage): Key {
    match stage
    case PutBinding(_) => Binding(h)
    case PutAccount(_) => Account(h)
    case _ => h
  }

  lemma UnholdOwnPass(s: State, t: State, h: Key, x: Key, p: Pass, next: Stage)
    requires Unhold(s, t, h, x) && PassShape(s.store, s.clock, h, p)
    requires Unholding(p.stage) && x == UnholdTarget(h, p.stage)
    requires next == match p.stage case PutBinding(_) => GetAccount case PutAccount(_) => Release case _ => Done(Released)
    ensures PassShape(t.store, t.clock, h, p.(stage := next))
  {
    FaithfulKept(s, t, x, h, p.host);
    if x != h {
      Elsewhere(s, t, x, h);
      UnholdCleared(s, t, h, x, h, Rank(p.stage));
    }
  }

  /** The call either fails and changes nothing, or takes the finalizer off its target. */
  lemma UnholdingEffect(s: State, h: Key, listing: seq<Key>, changed: bool)
    requires Inv(s) && Enabled(s, Call(h, listing, changed)) && Unholding(s.passes[h].stage)
    ensures var t, p := Next(s, Call(h, listing, changed)), s.passes[h];
      || (t.store == s.store && t.uids == s.uids && t.passes == s.passes[h := p.(stage := Done(Failed))])
      || (Unhold(s, t, h, UnholdTarget(h, p.stage)) && t.passes == s.passes[h := p.(stage :=
            match p.stage case PutBinding(_) => GetAccount case PutAccount(_) => Release case _ => Done(Released))])
  {
    var p := s.passes[h];
    PassOf(s, h);
    hide Inv, Cleared;
    ClearedLower(s.store, h, Rank(p.stage), 4);
    UnholdingCall(s, h, listing, changed);
  }

  lemma UnholdingCall(s: State, h: Key, listing: seq<Key>, changed: bool)
    requires Enabled(s, Call(h, listing, changed)) && Unholding(s.passes[h].stage)
    requires h.kind == Host && h in s.store && Cleared(s.store, h, 4)
    requires s.passes[h].stage.Release? ==> Cleared(s.store, h, 6)
    ensures var t, p := Next(s, Call(h, listing, changed)), s.passes[h];
      || (t.store == s.store && t.uids == s.uids && t.passes == s.passes[h := p.(stage := Done(Failed))])
      || (Unhold(s, t, h, UnholdTarget(h, p.stage)) && t.passes == s.passes[h := p.(stage :=
            match p.stage case PutBinding(_) => GetAccount case PutAccount(_) => Release case _ => Done(Released))])
  {
    hide Cleared, Listed, Ensure, Delete, IsListing;
  }

  lemma UnholdingKeeps(s: State, h: Key, listing: seq<Key>, changed: bool)
    requires Inv(s) && Enabled(s, Call(h, listing, changed)) && Unholding(s.passes[h].stage)
    ensures Inv(Next(s, Call(h, listing, changed)))
  {
    var t, p := Next(s, Call(h, listing, changed)), s.passes[h];
    assert PassShape(s.store, s.clock, h, p);
    var x := UnholdTarget(h, p.stage);
    UnholdingEffect(s, h, listing, changed);
    hide CallStep, Unhold;
    if t.store == s.store && t.passes == s.passes[h := p.(stage := Done(Failed))] && t.uids == s.uids {
      assert Benign(s, t, h);
      BenignKeeps(s, t, h);
      FailedShape(t.store, t.clock, h, p);
    } else {
      UnholdKeepsStore(s, t, h, x);
      UnholdOwnPass(s, t, h, x, p, t.passes[h].stage);
      forall g | g in s.passes && g != h ensures PassShape(t.store, t.clock, g, s.passes[g]) {
        UnholdOtherPass(s, t, h, x, g, s.passes[g]);
      }
    }
  }

  lemma UnholdKeepsStore(s: State, t: State, h: Key, x: Key)
    requires Inv(s) && Unhold(s, t, h, x)
    ensures Versions(t) && Hosts(t.store) && AllOwned(t.store)
  {
    VersionsKept(s, t, x);
    HostsKept(s, t, x);
    UnholdOwned(s, t, h, x);
  }

  lemma FailedShape(store: Store, clock: nat, h: Key, p: Pass)
    requires PassShape(store, clock, h, p)
    ensures PassShape(store, clock, h, p.(stage := Done(Failed)))
  {
  }

  /** Every step, of any pass, user or other controller, keeps the invariants. */
  lemma StepKeepsInv(s: State, a: Action)
    requires Inv(s) && Enabled(s, a)
    ensures Inv(Next(s, a))
  {
    match a {
      case AddHost(h) => AddHostKeeps(s, h);
      case Call(h, listing, changed) =>
        if Mild(s.passes[h].stage) {
          MildKeeps(s, h, listing, changed);
        } else if s.passes[h].stage.Writing? {
          WritingKeeps(s, h, listing, changed);
        } else {
          UnholdingKeeps(s, h, listing, changed);
        }
      case _ => EnvironmentKeeps(s, a);
    }
  }

  lemma {:induction false} RunKeepsInv(run: seq<State>, k: nat)
    requires IsRun(run) && k < |run|
    ensures Inv(run[k])
  {
    if k > 0 {
      RunKeepsInv(run, k - 1);
      assert Follows(run[k - 1], run[k - 1 + 1]);
      var a :| Enabled(run[k - 1], a) && run[k] == Next(run[k - 1], a);
      StepKeepsInv(run[k - 1], a);
    }
  }

  // ---------- theorems ----------

  /** The deployment never outlives its permissions: in every reachable state, inside a pass or
      not and whatever others delete, a host's deployment is accompanied by its service account
      and its role binding, and both carry the host finalizer. */
  lemma DeploymentHasPermissions(run: seq<State>, k: nat, h: Key)
    requires IsRun(run) && k < |run| && h.kind == Host && Own(h, Deployment) in run[k].store
    ensures Held(run[k].store, Account(h)) && Held(run[k].store, Binding(h))
    ensures Held(run[k].store, h)
  {
    RunKeepsInv(run, k);
    var d := Own(h, Deployment);
    assert Owned(run[k].store, d);
    assert HostOf(run[k].store, d) == h;
  }

  /** Nothing is left of a host that is being released. */
  ghost predicate TornDown(store: Store, h: Key) {
    && Own(h, InternalHost) !in store && Own(h, Deployment) !in store
    && (forall key :: key in store && key.kind in {InternalPage, InternalTranslation} && key.ns == h.ns ==>
          store[key].hostRef != h.name)
    && !Held(store, Binding(h)) && !Held(store, Account(h))
  }

  /** Teardown safety: a step by which a host loses the host finalizer is taken only in a state in
      which all that teardown waits for is absent and neither RBAC object carries the finalizer. */
  lemma ReleaseIsSafe(run: seq<State>, k: nat, a: Action, h: Key)
    requires IsRun(run) && k < |run| && Enabled(run[k], a) && h.kind == Host
    requires Held(run[k].store, h) && !Held(Next(run[k], a).store, h)
    ensures a.Call? && a.h == h && run[k].passes[h].stage.Release?
    ensures TornDown(run[k].store, h)
  {
    RunKeepsInv(run, k);
    OnlyReleaseUnholds(run[k], a, h);
    var s := run[k];
    assert PassShape(s.store, s.clock, h, s.passes[h]);
    forall key | key in s.store && key.kind in {InternalPage, InternalTranslation} && key.ns == h.ns
      ensures s.store[key].hostRef != h.name
    {
      assert key !in Listed(s.store, h, key.kind);
    }
  }

  lemma OnlyReleaseUnholds(s: State, a: Action, h: Key)
    requires Inv(s) && Enabled(s, a) && h.kind == Host
    requires Held(s.store, h) && !Held(Next(s, a).store, h)
    ensures a.Call? && a.h == h && s.passes[h].stage.Release?
  {
    hide PassShape, AllOwned, DistinctBindings, Versions, CallStep, Benign, Unhold, EnsureWrite;
    var t := Next(s, a);
    match a {
      case AddHost(g) => Elsewhere(s, t, g, h);
      case Call(g, listing, changed) =>
        var p := s.passes[g];
        if Mild(p.stage) {
          MildIsBenign(s, g, listing, changed);
          BenignHeld(s, t, MildTarget(g, p.stage), h);
        } else if p.stage.Writing? {
          WritingHeld(s, g, listing, changed, h);
        } else {
          UnholdingEffect(s, g, listing, changed);
          UnholdingHeld(s, g, listing, changed, h);
        }
      case _ => EnvironmentHeld(s, a, h);
    }
  }

  lemma EnvironmentHeld(s: State, a: Action, h: Key)
    requires Inv(s) && Enabled(s, a) && !a.AddHost? && !a.Call?
    ensures Held(s.store, h) ==> Held(Next(s, a).store, h)
  {
    hide Inv;
  }

  lemma WritingHeld(s: State, g: Key, listing: seq<Key>, changed: bool, h: Key)
    requires Inv(s) && Enabled(s, Call(g, listing, changed)) && s.passes[g].stage.Writing?
    ensures Held(s.store, h) ==> Held(Next(s, Call(g, listing, changed)).store, h)
  {
    var p := s.passes[g];
    assert PassShape(s.store, s.clock, g, p);
    var x := NextKey(g, p.stage.pre, p.stage.k);
    var (u, ok) := Ensure(s, g, p, x, p.stage.found, changed);
    EnsureFailsQuietly(s, g, p, x, p.stage.found, changed);
    if ok && u.store != s.store {
      EnsureIsEnsureWrite(s, g, changed, u, x);
      EnsureElsewhere(s, u.(clock := s.clock + 1), g, x, h);
    }
  }

  lemma UnholdingHeld(s: State, g: Key, listing: seq<Key>, changed: bool, h: Key)
    requires Inv(s) && Enabled(s, Call(g, listing, changed)) && Unholding(s.passes[g].stage) && h.kind == Host
    requires Held(s.store, h) && !Held(Next(s, Call(g, listing, changed)).store, h)
    ensures g == h && s.passes[g].stage.Release?
  {
    UnholdingEffect(s, g, listing, changed);
    var t, x := Next(s, Call(g, listing, changed)), UnholdTarget(g, s.passes[g].stage);
    hide CallStep;
    if Unhold(s, t, g, x) {
      UnholdKinds(s, t, g, x);
      if x != h { Elsewhere(s, t, x, h); }
      GoesHeld(s, g);
    }
  }

  lemma GoesHeld(s: State, g: Key)
    requires Inv(s) && g in s.passes
    ensures g.kind == Host
  {
    assert PassShape(s.store, s.clock, g, s.passes[g]);
  }

  /** Ownership is exclusive: an internal translation or page names the host that controls it,
      although the names that two hosts derive for translations may collide. */
  lemma HostRefNamesOwner(run: seq<State>, k: nat, key: Key)
    requires IsRun(run) && k < |run| && key in run[k].store
    requires key.kind == InternalTranslation || key.kind == InternalPage
    ensures var store := run[k].store; var h := Key(Host, key.ns, store[key].hostRef);
            h in store && store[key].owner == Some(store[h].uid)
    ensures forall g :: g in run[k].store && run[k].store[key].owner == Some(run[k].store[g].uid)
                        ==> g == Key(Host, key.ns, run[k].store[key].hostRef)
  {
    RunKeepsInv(run, k);
    assert Owned(run[k].store, key);
  }
}
