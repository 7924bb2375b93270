/** What a pass comes to when nobody else acts while it is in flight. */
module Undisturbed {
  import opened Options
  import opened HostProtocol
  import opened HostSafety
  import opened Creation
  import opened Teardown
  import opened Deletion

  ghost predicate OwnCall(s: State, t: State, h: Key) {
    exists listing, changed :: Enabled(s, Call(h, listing, changed)) && t == Next(s, Call(h, listing, changed))
  }

  /** Nobody acts but the pass over `h`, call by call. */
  ghost predicate OwnCalls(run: seq<State>, h: Key) {
    && run != [] && h in run[0].passes
    && forall i :: 0 <= i < |run| - 1 ==> OwnCall(run[i], run[i + 1], h)
  }

  lemma {:induction false} OwnCallsKeepInv(run: seq<State>, h: Key, k: nat)
    requires OwnCalls(run, h) && Inv(run[0]) && k < |run|
    ensures Inv(run[k]) && h in run[k].passes && run[k].passes[h].host == run[0].passes[h].host
  {
    if k > 0 {
      hide Inv, Enabled, Next;
      OwnCallsKeepInv(run, h, k - 1);
      assert OwnCall(run[k - 1], run[k - 1 + 1], h);
      var listing, changed :| Enabled(run[k - 1], Call(h, listing, changed))
        && run[k] == Next(run[k - 1], Call(h, listing, changed));
      StepKeepsInv(run[k - 1], Call(h, listing, changed));
      CallKeepsHost(run[k - 1], h, listing, changed);
    }
  }

  lemma CallKeepsHost(s: State, h: Key, listing: seq<Key>, changed: bool)
    requires Enabled(s, Call(h, listing, changed))
    ensures var t := Next(s, Call(h, listing, changed)); h in t.passes && t.passes[h].host == s.passes[h].host
  {
    hide Ensure, Delete, Put, Listed, IsListing;
    var p := s.passes[h];
    if p.stage.Writing? && (p.stage.pre != [] || p.stage.k < FIXED) {
      EnsureLeavesPasses(s, h, p, listing, changed);
    }
  }

  // ---------- creating ----------

  /** Nothing stands in the way of creating or updating the object: no other uid controls it, and
      it need not be given a finalizer while it is being deleted. */
  predicate Free(store: Store, uid: nat, key: Key) {
    key in store ==>
      && (key.kind != RoleBinding ==> store[key].owner == None || store[key].owner == Some(uid))
      && (key.kind == ServiceAccount || key.kind == RoleBinding ==> store[key].marked ==> store[key].held)
  }

  function Lookup(store: Store, key: Key): Option<Obj> {
    if key in store then Some(store[key]) else None
  }

  /** A create or update on what was just read goes through if the object is free, and leaves every
      object as free as it was. */
  lemma EnsureIffFree(s: State, h: Key, p: Pass, key: Key, changed: bool)
    ensures var (u, ok) := Ensure(s, h, p, key, Lookup(s.store, key), changed);
      && (ok <==> Free(s.store, p.host.uid, key))
      && (ok ==> forall k :: Free(u.store, p.host.uid, k) <==> Free(s.store, p.host.uid, k))
  {
  }

  ghost predicate FreeUpTo(store: Store, uid: nat, wanted: seq<Key>, count: int) {
    forall i :: 0 <= i < count && i < |wanted| ==> Free(store, uid, wanted[i])
  }

  /** Where the pass stands, in terms of the store that it began with. */
  ghost predicate CreatingAt(before: Store, s: State, h: Key, pre: seq<Key>) {
    && h in s.passes
    && var p := s.passes[h];
       var uid, wanted := p.host.uid, Wanted(h, pre);
       && (forall key :: Free(s.store, uid, key) <==> Free(before, uid, key))
       && match p.stage
          case Ensuring(left, n) => AtPoint(pre, left, n) && FreeUpTo(before, uid, wanted, |pre| - |left| + n)
          case Writing(left, n, found) =>
            && AtPoint(pre, left, n) && FreeUpTo(before, uid, wanted, |pre| - |left| + n)
            && found == Lookup(s.store, NextKey(h, left, n))
          case Done(o) => o == if FreeUpTo(before, uid, wanted, |wanted|) then Complete else Failed
          case _ => false
  }

  lemma OneMoreFree(store: Store, uid: nat, wanted: seq<Key>, count: int)
    requires FreeUpTo(store, uid, wanted, count) && 0 <= count < |wanted|
    ensures Free(store, uid, wanted[count]) ==> FreeUpTo(store, uid, wanted, count + 1)
    ensures !Free(store, uid, wanted[count]) ==> !FreeUpTo(store, uid, wanted, |wanted|)
  {
    hide Free;
  }

  /** What a call that writes does, in terms of the write alone. */
  lemma WriteCall(s: State, h: Key, listing: seq<Key>, changed: bool)
    requires Enabled(s, Call(h, listing, changed)) && s.passes[h].stage.Writing?
    requires s.passes[h].stage.pre != [] || s.passes[h].stage.k < FIXED
    ensures var p, t := s.passes[h], Next(s, Call(h, listing, changed));
      var (u, ok) := Ensure(s, h, p, NextKey(h, p.stage.pre, p.stage.k), p.stage.found, changed);
      && h in t.passes
      && t.passes[h] == p.(stage := if ok then Advance(p.stage.pre, p.stage.k) else Done(Failed))
      && t.store == if ok then u.store else s.store
  {
    hide Ensure, Advance, NextKey;
    var p := s.passes[h];
    EnsureFailsQuietly(s, h, p, NextKey(h, p.stage.pre, p.stage.k), p.stage.found, changed);
    EnsureLeavesPasses(s, h, p, listing, changed);
  }

  lemma WriteUndisturbed(before: Store, s: State, h: Key, pre: seq<Key>, listing: seq<Key>, changed: bool)
    requires CreatingAt(before, s, h, pre) && s.passes[h].stage.Writing?
    requires Enabled(s, Call(h, listing, changed))
    ensures CreatingAt(before, Next(s, Call(h, listing, changed)), h, pre)
  {
    hide Ensure, Free, FreeUpTo, Wanted, AtPoint, NextKey, Advance, Next, Enabled;
    var p := s.passes[h];
    var left, n := p.stage.pre, p.stage.k;
    PointIsOpen(pre, left, n);
    var key := NextKey(h, left, n);
    EnsureIffFree(s, h, p, key, changed);
    NextIsWanted(h, pre, left, n);
    AdvanceCounts(h, pre, left, n);
    OneMoreFree(before, p.host.uid, Wanted(h, pre), |pre| - |left| + n);
    WriteCall(s, h, listing, changed);
  }

  lemma CreatingStep(before: Store, s: State, h: Key, pre: seq<Key>, listing: seq<Key>, changed: bool)
    requires CreatingAt(before, s, h, pre) && Enabled(s, Call(h, listing, changed))
    ensures CreatingAt(before, Next(s, Call(h, listing, changed)), h, pre)
  {
    if s.passes[h].stage.Writing? {
      WriteUndisturbed(before, s, h, pre, listing, changed);
    } else {
      hide Free, FreeUpTo, Wanted;
      PointIsOpen(pre, s.passes[h].stage.pre, s.passes[h].stage.k);
    }
  }

  lemma {:induction false} CreatingThroughout(run: seq<State>, h: Key, pre: seq<Key>, k: nat)
    requires OwnCalls(run, h) && run[0].passes[h].stage == Ensuring(pre, 0) && k < |run|
    ensures CreatingAt(run[0].store, run[k], h, pre)
  {
    if k > 0 {
      hide Enabled, Next, CreatingAt;
      CreatingThroughout(run, h, pre, k - 1);
      assert OwnCall(run[k - 1], run[k - 1 + 1], h);
      var listing, changed :| Enabled(run[k - 1], Call(h, listing, changed))
        && run[k] == Next(run[k - 1], Call(h, listing, changed));
      CreatingStep(run[0].store, run[k - 1], h, pre, listing, changed);
    } else {
      assert pre == pre[0..];
    }
  }

  /** An undisturbed pass over a live host that has come to its end is complete if and only if at
      its beginning each object that it was to create or update was free; otherwise it has failed. */
  lemma UndisturbedCreation(run: seq<State>, h: Key, pre: seq<Key>)
    requires OwnCalls(run, h) && run[0].passes[h].stage == Ensuring(pre, 0)
    requires var last := run[|run| - 1]; h in last.passes && last.passes[h].stage.Done?
    ensures var last := run[|run| - 1];
      last.passes[h].stage == Done(if AllFree(run[0].store, h, last.passes[h].host.uid, pre) then Complete else Failed)
  {
    hide Free, Wanted;
    var last := run[|run| - 1];
    CreatingThroughout(run, h, pre, |run| - 1);
    AllFreeIsFreeUpTo(run[0].store, h, last.passes[h].host.uid, pre);
  }

  lemma AllFreeIsFreeUpTo(store: Store, h: Key, uid: nat, pre: seq<Key>)
    ensures AllFree(store, h, uid, pre) <==> FreeUpTo(store, uid, Wanted(h, pre), |Wanted(h, pre)|)
  {
    WantedKeys(h, pre);
    hide Free, Wanted;
    var wanted := Wanted(h, pre);
    if FreeUpTo(store, uid, wanted, |wanted|) {
      forall key | key in wanted ensures Free(store, uid, key) {
        var i :| 0 <= i < |wanted| && wanted[i] == key;
      }
    }
    if AllFree(store, h, uid, pre) {
      forall i | 0 <= i < |wanted| ensures Free(store, uid, wanted[i]) {
        assert wanted[i] in wanted;
      }
    }
  }

  lemma WantedKeys(h: Key, pre: seq<Key>)
    ensures forall key :: key in Wanted(h, pre) <==>
      || key in pre
      || key in {Key(ConfigMap, h.ns, h.name), Key(ServiceAccount, h.ns, h.name),
                 Key(RoleBinding, "", h.name + "-" + h.ns), Key(Deployment, h.ns, h.name),
                 Key(Service, h.ns, h.name), Key(InternalHost, h.ns, h.name)}
  {
  }

  ghost predicate AllFree(store: Store, h: Key, uid: nat, pre: seq<Key>) {
    forall key :: key in pre
        || key in {Key(ConfigMap, h.ns, h.name), Key(ServiceAccount, h.ns, h.name),
                   Key(RoleBinding, "", h.name + "-" + h.ns), Key(Deployment, h.ns, h.name),
                   Key(Service, h.ns, h.name), Key(InternalHost, h.ns, h.name)}
      ==> Free(store, uid, key)
  }

  // ---------- tearing down ----------

  ghost predicate LowerEmpty(store: Store, h: Key, rank: nat) {
    forall r: nat :: r < rank ==> StageObjects(store, h, r) == {}
  }

  /** `left` holds the objects of the stage that are still live. */
  ghost predicate Deleting(before: Store, store: Store, h: Key, rank: nat, left: seq<Key>) {
    && left != [] && (forall i, j :: 0 <= i < j < |left| ==> left[i] != left[j])
    && (forall key :: key in left ==> key in StageObjects(before, h, rank) && Live(store, key) && Live(before, key))
    && forall key :: key in StageObjects(before, h, rank) && Live(store, key) ==> key in left
  }

  /** The first stage with anything left had live objects, and none of them is live any more. */
  ghost predicate StageDeleted(before: Store, store: Store, h: Key, rank: nat) {
    && rank < 4 && LowerEmpty(before, h, rank)
    && (exists key :: key in StageObjects(before, h, rank) && Live(before, key))
    && forall key :: key in StageObjects(before, h, rank) ==> !Live(store, key)
  }

  /** None of the objects that teardown waits for is there. */
  predicate NothingLeft(store: Store, h: Key) {
    && Key(InternalHost, h.ns, h.name) !in store && Key(Deployment, h.ns, h.name) !in store
    && forall key :: key in store && key.kind in {InternalPage, InternalTranslation} && key.ns == h.ns ==>
         store[key].hostRef != h.name
  }

  /** The three ways in which a pass over a deleted host ends, told apart by the store that it
      begins with. */
  ghost predicate Ended(before: Store, store: Store, h: Key, o: Outcome) {
    match o
    case Released => NothingLeft(before, h) && !Held(store, h) && !Held(store, Binding(h)) && !Held(store, Account(h))
    case Waited => store == before && exists rank: nat :: rank < 4 && OnlyWaiting(before, h, rank)
    case Deleted => exists rank: nat :: StageDeleted(before, store, h, rank)
    case _ => false
  }

  ghost predicate HostKept(before: Store, s: State, h: Key)
    requires h in s.passes
  {
    && h.kind == Host && h.name != ""
    && h in before && h in s.store && s.store[h] == before[h] && s.passes[h].host == before[h]
  }

  ghost predicate TearingAt(before: Store, s: State, h: Key) {
    && h in s.passes
    && var store, stage := s.store, s.passes[h].stage;
       && (!stage.Done? ==> HostKept(before, s, h) && LowerEmpty(before, h, if Rank(stage) > 4 then 4 else Rank(stage)))
       && match stage
          case GetInternalHost => store == before
          case ListPages => store == before
          case ListTranslations => store == before
          case GetDeployment => store == before
          case GetBinding => store == before
          case DeleteInternalHost => store == before && Live(store, Own(h, InternalHost))
          case DeleteDeployment => store == before && Live(store, Own(h, Deployment))
          case DeletePages(left) => Deleting(before, store, h, 1, left)
          case DeleteTranslations(left) => Deleting(before, store, h, 2, left)
          case PutBinding(seen) => Lookup(store, Binding(h)) == Some(seen)
          case GetAccount => !Held(store, Binding(h))
          case PutAccount(seen) => !Held(store, Binding(h)) && Lookup(store, Account(h)) == Some(seen)
          case Release => !Held(store, Binding(h)) && !Held(store, Account(h))
          case Done(o) => Ended(before, store, h, o)
          case _ => false
  }

  predicate Getting(stage: Stage) {
    stage.GetInternalHost? || stage.GetDeployment? || stage.GetBinding? || stage.GetAccount?
  }

  lemma GetStep(before: Store, s: State, h: Key, listing: seq<Key>, changed: bool)
    requires TearingAt(before, s, h) && Enabled(s, Call(h, listing, changed)) && Getting(s.passes[h].stage)
    ensures TearingAt(before, Next(s, Call(h, listing, changed)), h)
  {
    hide Ensure, Delete, Put, IsListing, Listed;
    var stage, store := s.passes[h].stage, s.store;
    if stage.GetInternalHost? || stage.GetDeployment? {
      var rank := Rank(stage);
      var key := if stage.GetDeployment? then Own(h, Deployment) else Own(h, InternalHost);
      assert key in store <==> key in StageObjects(store, h, rank);
      if key in store && store[key].marked {
        assert OnlyWaiting(before, h, rank);
      }
    }
  }

  lemma ListStep(before: Store, s: State, h: Key, listing: seq<Key>, changed: bool)
    requires TearingAt(before, s, h) && Enabled(s, Call(h, listing, changed))
    requires s.passes[h].stage.ListPages? || s.passes[h].stage.ListTranslations?
    ensures TearingAt(before, Next(s, Call(h, listing, changed)), h)
  {
    hide Ensure, Delete, Put, Listed;
    var stage := s.passes[h].stage;
    var rank := Rank(stage);
    if StageObjects(before, h, rank) != {} && listing == [] {
      forall key | key in StageObjects(before, h, rank) ensures !Live(before, key) {
        assert key !in listing;
      }
      assert OnlyWaiting(before, h, rank);
    }
  }

  lemma DeleteStep(before: Store, s: State, h: Key, listing: seq<Key>, changed: bool)
    requires TearingAt(before, s, h) && Enabled(s, Call(h, listing, changed))
    requires s.passes[h].stage.DeleteInternalHost? || s.passes[h].stage.DeleteDeployment?
    ensures TearingAt(before, Next(s, Call(h, listing, changed)), h)
  {
    hide Ensure, Listed, IsListing;
    var stage := s.passes[h].stage;
    var key := if stage.DeleteDeployment? then Own(h, Deployment) else Own(h, InternalHost);
    assert key in StageObjects(before, h, Rank(stage));
    assert StageDeleted(before, Next(s, Call(h, listing, changed)).store, h, Rank(stage));
  }

  /** One of the listed objects is deleted. */
  lemma OneDeleted(before: Store, s: State, h: Key, rank: nat, left: seq<Key>)
    requires Deleting(before, s.store, h, rank, left) && rank < 4 && LowerEmpty(before, h, rank)
    requires left[0] in s.store
    ensures var store := Delete(s.store, left[0], s.clock);
      if |left| == 1 then StageDeleted(before, store, h, rank) else Deleting(before, store, h, rank, left[1..])
  {
    hide StageObjects, LowerEmpty;
    var store := Delete(s.store, left[0], s.clock);
    assert !Live(store, left[0]);
    forall key | key != left[0] ensures Live(store, key) <==> Live(s.store, key) {
    }
    assert left[0] in left;
    if |left| > 1 {
      forall key ensures key in left <==> key == left[0] || key in left[1..] {
      }
    }
  }

  lemma DeleteNextStep(before: Store, s: State, h: Key, listing: seq<Key>, changed: bool)
    requires TearingAt(before, s, h) && Enabled(s, Call(h, listing, changed))
    requires s.passes[h].stage.DeletePages? || s.passes[h].stage.DeleteTranslations?
    ensures TearingAt(before, Next(s, Call(h, listing, changed)), h)
  {
    hide Ensure, Listed, IsListing, Deleting, StageDeleted;
    var stage := s.passes[h].stage;
    FirstLeft(before, s.store, h, Rank(stage), stage.left);
    OneDeleted(before, s, h, Rank(stage), stage.left);
  }

  lemma FirstLeft(before: Store, store: Store, h: Key, rank: nat, left: seq<Key>)
    requires Deleting(before, store, h, rank, left) && (rank == 1 || rank == 2)
    ensures left != [] && left[0] in store && left[0].kind != Host
  {
    assert left[0] in left;
  }

  lemma RbacStep(before: Store, s: State, h: Key, listing: seq<Key>, changed: bool)
    requires TearingAt(before, s, h) && Enabled(s, Call(h, listing, changed))
    requires s.passes[h].stage.PutBinding? || s.passes[h].stage.PutAccount?
    ensures TearingAt(before, Next(s, Call(h, listing, changed)), h)
  {
    hide Ensure, IsListing, LowerEmpty, Ended, Deleting, Delete, Listed;
  }

  lemma ReleaseStep(before: Store, s: State, h: Key, listing: seq<Key>, changed: bool)
    requires TearingAt(before, s, h) && Enabled(s, Call(h, listing, changed)) && s.passes[h].stage.Release?
    ensures TearingAt(before, Next(s, Call(h, listing, changed)), h)
  {
    hide Ensure, IsListing, LowerEmpty, NothingLeft, Deleting, Delete, Listed;
    EmptyIsNothingLeft(before, h);
  }

  lemma EmptyIsNothingLeft(store: Store, h: Key)
    requires LowerEmpty(store, h, 4) && h.name != ""
    ensures NothingLeft(store, h)
  {
    assert StageObjects(store, h, 0) == {} && StageObjects(store, h, 1) == {};
    assert StageObjects(store, h, 2) == {} && StageObjects(store, h, 3) == {};
    assert Own(h, InternalHost) !in StageObjects(store, h, 0) && Own(h, Deployment) !in StageObjects(store, h, 3);
    forall key | key in store && key.kind in {InternalPage, InternalTranslation} && key.ns == h.ns
      ensures store[key].hostRef != h.name
    {
      assert key !in Listed(store, h, key.kind);
    }
  }

  lemma TearingStep(before: Store, s: State, h: Key, listing: seq<Key>, changed: bool)
    requires TearingAt(before, s, h) && Enabled(s, Call(h, listing, changed))
    ensures TearingAt(before, Next(s, Call(h, listing, changed)), h)
  {
    hide Next;
    var stage := s.passes[h].stage;
    if Getting(stage) {
      GetStep(before, s, h, listing, changed);
    } else if stage.ListPages? || stage.ListTranslations? {
      ListStep(before, s, h, listing, changed);
    } else if stage.DeleteInternalHost? || stage.DeleteDeployment? {
      DeleteStep(before, s, h, listing, changed);
    } else if stage.DeletePages? || stage.DeleteTranslations? {
      DeleteNextStep(before, s, h, listing, changed);
    } else if stage.Release? {
      ReleaseStep(before, s, h, listing, changed);
    } else {
      RbacStep(before, s, h, listing, changed);
    }
  }

  lemma {:induction false} TearingThroughout(run: seq<State>, h: Key, k: nat)
    requires OwnCalls(run, h) && run[0].passes[h].stage == GetInternalHost && HostKept(run[0].store, run[0], h)
    requires k < |run|
    ensures TearingAt(run[0].store, run[k], h)
  {
    if k > 0 {
      hide Enabled, Next, TearingAt;
      TearingThroughout(run, h, k - 1);
      assert OwnCall(run[k - 1], run[k - 1 + 1], h);
      var listing, changed :| Enabled(run[k - 1], Call(h, listing, changed))
        && run[k] == Next(run[k - 1], Call(h, listing, changed));
      TearingStep(run[0].store, run[k - 1], h, listing, changed);
    }
  }

  /** An undisturbed pass over a deleted host never fails. It releases the host if nothing that
      teardown waits for was there, waits if all of the first non-empty stage was terminating, and
      otherwise deletes all that was live in it. */
  lemma UndisturbedTeardown(run: seq<State>, h: Key)
    requires OwnCalls(run, h) && Inv(run[0]) && run[0].passes[h].stage == GetInternalHost
    requires h in run[0].store && run[0].passes[h].host == run[0].store[h]
    requires var last := run[|run| - 1]; h in last.passes && last.passes[h].stage.Done?
    ensures var last := run[|run| - 1];
      Ended(run[0].store, last.store, h, last.passes[h].stage.outcome)
  {
    PassOf(run[0], h);
    hide Inv;
    TearingThroughout(run, h, |run| - 1);
  }

  // ---------- every pass can come to its end ----------

  function Phase(stage: Stage): nat {
    match stage
    case GetInternalHost => 9
    case ListPages => 8
    case ListTranslations => 7
    case GetDeployment => 6
    case GetBinding => 5
    case PutBinding(_) => 4
    case GetAccount => 3
    case PutAccount(_) => 2
    case Done(_) => 0
    case _ => 1
  }

  /** The calls left in a phase that takes several. */
  function Rest(stage: Stage): nat {
    match stage
    case Ensuring(pre, k) => 2 * (|pre| + if k < FIXED then FIXED - k else 0) + 1
    case Writing(pre, k, _) => 2 * (|pre| + if k < FIXED then FIXED - k else 0)
    case _ => |ToDelete(stage)|
  }

  ghost predicate Falls(stage: Stage, next: Stage) {
    Phase(next) < Phase(stage) || (Phase(next) == Phase(stage) && Rest(next) < Rest(stage))
  }

  lemma AdvanceFalls(pre: seq<Key>, k: nat, found: Option<Obj>)
    requires pre != [] || k < FIXED
    ensures Falls(Writing(pre, k, found), Advance(pre, k)) && Falls(Ensuring(pre, k), Writing(pre, k, found))
  {
  }

  lemma WritingFalls(s: State, h: Key, listing: seq<Key>, changed: bool)
    requires Enabled(s, Call(h, listing, changed)) && s.passes[h].stage.Writing?
    requires h in Next(s, Call(h, listing, changed)).passes
    ensures Falls(s.passes[h].stage, Next(s, Call(h, listing, changed)).passes[h].stage)
  {
    hide Ensure, Advance;
    var p := s.passes[h];
    if p.stage.pre != [] || p.stage.k < FIXED {
      AdvanceFalls(p.stage.pre, p.stage.k, p.stage.found);
      EnsureLeavesPasses(s, h, p, listing, changed);
    }
  }

  lemma StageFalls(s: State, h: Key, listing: seq<Key>, changed: bool)
    requires Enabled(s, Call(h, listing, changed)) && h in Next(s, Call(h, listing, changed)).passes
    ensures Falls(s.passes[h].stage, Next(s, Call(h, listing, changed)).passes[h].stage)
  {
    hide Next, Phase, Rest;
    var stage := s.passes[h].stage;
    if stage.Writing? {
      WritingFalls(s, h, listing, changed);
    } else if stage.Ensuring? {
      EnsuringFalls(s, h, listing, changed);
    } else if stage.DeletePages? || stage.DeleteTranslations? {
      DeletingFalls(s, h, listing, changed);
    } else {
      TearingFalls(s, h, listing, changed);
    }
  }

  lemma DeletingFalls(s: State, h: Key, listing: seq<Key>, changed: bool)
    requires Enabled(s, Call(h, listing, changed)) && h in Next(s, Call(h, listing, changed)).passes
    requires s.passes[h].stage.DeletePages? || s.passes[h].stage.DeleteTranslations?
    ensures Falls(s.passes[h].stage, Next(s, Call(h, listing, changed)).passes[h].stage)
  {
    hide Ensure, Delete, Listed, IsListing, Advance;
  }

  lemma TearingFalls(s: State, h: Key, listing: seq<Key>, changed: bool)
    requires Enabled(s, Call(h, listing, changed)) && h in Next(s, Call(h, listing, changed)).passes
    requires !s.passes[h].stage.Ensuring? && !s.passes[h].stage.Writing?
    requires !s.passes[h].stage.DeletePages? && !s.passes[h].stage.DeleteTranslations?
    ensures Phase(Next(s, Call(h, listing, changed)).passes[h].stage) < Phase(s.passes[h].stage)
  {
    hide Ensure, Delete, Put, Listed, IsListing, Advance;
  }

  lemma EnsuringFalls(s: State, h: Key, listing: seq<Key>, changed: bool)
    requires Enabled(s, Call(h, listing, changed)) && s.passes[h].stage.Ensuring?
    ensures Falls(s.passes[h].stage, Next(s, Call(h, listing, changed)).passes[h].stage)
  {
  }

  lemma {:induction false} SomeListing(store: Store, keys: set<Key>) returns (listing: seq<Key>)
    ensures IsListing(store, listing, keys)
    decreases keys
  {
    listing := [];
    if keys != {} {
      var key :| key in keys;
      var rest := SomeListing(store, keys - {key});
      listing := if Live(store, key) then [key] + rest else rest;
    }
  }

  /** Left to itself, a pass over a live or a deleted host comes to its end. */
  lemma {:induction false} PassCanEnd(s: State, h: Key) returns (run: seq<State>)
    requires Inv(s) && h in s.passes
    ensures OwnCalls(run, h) && run[0] == s
    ensures var last := run[|run| - 1]; h in last.passes && last.passes[h].stage.Done?
    decreases Phase(s.passes[h].stage), Rest(s.passes[h].stage)
  {
    hide Inv, Next, CallStep, IsListing, Listed, Phase, Rest;
    run := [s];
    var stage := s.passes[h].stage;
    if !stage.Done? {
      var kind := if stage.ListPages? then InternalPage else InternalTranslation;
      var listing := SomeListing(s.store, Listed(s.store, h, kind));
      var t := Next(s, Call(h, listing, false));
      CallKeepsHost(s, h, listing, false);
      StageFalls(s, h, listing, false);
      assert Falls(stage, t.passes[h].stage);
      StepKeepsInv(s, Call(h, listing, false));
      assert OwnCall(s, t, h);
      var rest := PassCanEnd(t, h);
      run := [s] + rest;
      forall i | 0 <= i < |run| - 1 ensures OwnCall(run[i], run[i + 1], h) {
        if i > 0 {
          assert OwnCall(rest[i - 1], rest[i - 1 + 1], h);
        }
      }
    }
  }

  // ---------- whole passes ----------

  /** What a whole pass over `host` comes to, told by the host as it is when the pass begins. */
  ghost predicate Comes(run: seq<State>, h: Key, pre: seq<Key>, before: Store, after: Store, o: Outcome)
    requires h in before
  {
    var host := before[h];
    if !host.marked && !host.held then o == Admitted && Held(after, h) && before - {h} == after - {h}
    else if !host.marked then
      && o == (if AllFree(before, h, host.uid, pre) then Complete else Failed)
      && (o == Complete ==> AllCreated(run, h, host.uid, pre))
    else if host.held then Ended(before, after, h, o)
    else o == Complete && after == before
  }

  lemma OwnCallIsStep(run: seq<State>, h: Key, k: nat) returns (listing: seq<Key>, changed: bool)
    requires OwnCalls(run, h) && k + 1 < |run|
    ensures Enabled(run[k], Call(h, listing, changed)) && run[k + 1] == Next(run[k], Call(h, listing, changed))
  {
    hide Enabled, Next;
    assert OwnCall(run[k], run[k + 1], h);
    listing, changed :| Enabled(run[k], Call(h, listing, changed))
      && run[k + 1] == Next(run[k], Call(h, listing, changed));
  }

  lemma OwnCallsArePath(run: seq<State>, h: Key)
    requires OwnCalls(run, h) && Inv(run[0])
    ensures During(run, h)
  {
    hide Inv, Enabled, Next;
    forall i | 0 <= i < |run| - 1 ensures Follows(run[i], run[i + 1]) {
      var listing, changed := OwnCallIsStep(run, h, i);
    }
    forall k | 0 <= k < |run| ensures h in run[k].passes {
      OwnCallsKeepInv(run, h, k);
    }
  }

  /** A pass that has come to its end makes no more calls, and one that only adds the finalizer makes
      one. */
  lemma ShortPass(run: seq<State>, h: Key)
    requires OwnCalls(run, h) && Inv(run[0])
    requires run[0].passes[h].stage.Done? || (run[0].passes[h].stage.Adding? && HostKept(run[0].store, run[0], h))
    requires !(h in run[0].store && run[0].store[h].marked) || run[0].passes[h].stage.Done?
    requires var last := run[|run| - 1]; h in last.passes && last.passes[h].stage.Done?
    ensures var last := run[|run| - 1];
      if run[0].passes[h].stage.Done? then last == run[0]
      else last.passes[h].stage == Done(Admitted) && Held(last.store, h) && last.store - {h} == run[0].store - {h}
  {
    hide Inv;
    if |run| > 1 {
      var listing, changed := OwnCallIsStep(run, h, 0);
      if |run| > 2 {
        var more, again := OwnCallIsStep(run, h, 1);
      }
    }
  }

  /** An undisturbed pass from its beginning to its end: it admits a live host without the finalizer,
      creates all that a live host owns, tears a deleted one down by one stage or releases it, and
      leaves alone a deleted host that it has released. */
  lemma UndisturbedPass(s: State, run: seq<State>, h: Key, pre: seq<Key>)
    requires Inv(s) && Enabled(s, Begin(h, pre)) && OwnCalls(run, h) && run[0] == Next(s, Begin(h, pre))
    requires var last := run[|run| - 1]; h in last.passes && last.passes[h].stage.Done?
    ensures var last := run[|run| - 1];
      Comes(run, h, pre, s.store, last.store, last.passes[h].stage.outcome)
  {
    var last := run[|run| - 1];
    StepKeepsInv(s, Begin(h, pre));
    PassOf(run[0], h);
    hide Inv, Ended, AllFree, AllCreated;
    var stage := run[0].passes[h].stage;
    if stage.Done? || stage.Adding? {
      ShortPass(run, h);
    } else if stage.Ensuring? {
      UndisturbedCreation(run, h, pre);
      OwnCallsKeepInv(run, h, |run| - 1);
      OwnCallsArePath(run, h);
      if last.passes[h].stage == Done(Complete) {
        CompletePassCreated(run, h, pre);
      }
    } else {
      UndisturbedTeardown(run, h);
    }
  }
}
