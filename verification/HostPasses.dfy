/** One pass of the host controller as its code makes it, call by call, with arbitrary steps of
    users, other controllers and other passes before every call. Whatever they do, the pass is a
    run of the protocol. */
module HostPasses {
  import opened Options
  import opened HostProtocol
  import opened HostSafety
  import opened Deletion
  import opened Creation

  // ---------- runs from any state ----------

  ghost predicate Links(run: seq<State>, h: Key, s: State, t: State) {
    During(run, h) && run[0] == s && run[|run| - 1] == t
  }

  /** Steps of the protocol lead from `s` to `t`, with the pass over `h` in flight all along. */
  ghost predicate Leads(h: Key, s: State, t: State) {
    exists run :: Links(run, h, s, t)
  }

  lemma LeadsNowhere(h: Key, s: State)
    requires h in s.passes
    ensures Leads(h, s, s)
  {
    assert Links([s], h, s, s);
  }

  /** Two stretches of steps, one after the other. */
  lemma Joined(a: seq<State>, b: seq<State>) returns (run: seq<State>)
    requires Path(a) && Path(b) && a[|a| - 1] == b[0]
    ensures Path(run) && a <= run && run[|run| - 1] == b[|b| - 1] && |run| == |a| + |b| - 1
    ensures forall k :: 0 <= k < |run| ==> run[k] in a || run[k] in b
  {
    run := a + b[1..];
    forall i | 0 <= i < |run| - 1 ensures Follows(run[i], run[i + 1]) {
      if i < |a| - 1 {
        assert Follows(a[i], a[i + 1]);
      } else {
        var j := i - (|a| - 1);
        assert run[i] == b[j] && run[i + 1] == b[j + 1];
        assert Follows(b[j], b[j + 1]);
      }
    }
  }

  lemma LeadsOn(h: Key, s: State, t: State, u: State)
    requires Leads(h, s, t) && Leads(h, t, u)
    ensures Leads(h, s, u)
  {
    var a :| Links(a, h, s, t);
    var b :| Links(b, h, t, u);
    var run := Joined(a, b);
    forall k | 0 <= k < |run| ensures h in run[k].passes {
      assert run[k] in a || run[k] in b;
    }
    assert Links(run, h, s, u);
  }

  lemma LeadsStep(h: Key, s: State, a: Action)
    requires Enabled(s, a) && h in s.passes && h in Next(s, a).passes
    ensures Leads(h, s, Next(s, a))
  {
    var t := Next(s, a);
    assert Follows(s, t);
    assert Links([s, t], h, s, t);
  }

  /** What the code does after a run of the protocol is a run of the protocol. */
  lemma CodeRunIsRun(run: seq<State>, h: Key, t: State) returns (run': seq<State>)
    requires IsRun(run) && Leads(h, run[|run| - 1], t)
    ensures IsRun(run') && run <= run' && run'[|run'| - 1] == t
  {
    var b :| Links(b, h, run[|run| - 1], t);
    run' := Joined(run, b);
  }

  // ---------- the calls ----------

  /** An entry of a list result. */
  datatype Item = Item(key: Key, marked: bool)

  function LiveOf(items: seq<Item>): seq<Key> {
    if items == [] then []
    else (if items[0].marked then [] else [items[0].key]) + LiveOf(items[1..])
  }

  lemma {:induction false} LiveMembers(items: seq<Item>)
    ensures forall key :: key in LiveOf(items) <==> exists i :: 0 <= i < |items| && items[i] == Item(key, false)
  {
    if items != [] {
      LiveMembers(items[1..]);
      forall key ensures key in LiveOf(items) <==> exists i :: 0 <= i < |items| && items[i] == Item(key, false) {
        if key in LiveOf(items[1..]) {
          var i :| 0 <= i < |items[1..]| && items[1..][i] == Item(key, false);
          assert items[i + 1] == Item(key, false);
        }
        if i :| 0 <= i < |items| && items[i] == Item(key, false) {
          assert i > 0 ==> items[1..][i - 1] == Item(key, false);
        }
      }
    }
  }

  lemma {:induction false} LiveDistinct(items: seq<Item>)
    requires forall i, j :: 0 <= i < j < |items| ==> items[i].key != items[j].key
    ensures forall i, j :: 0 <= i < j < |LiveOf(items)| ==> LiveOf(items)[i] != LiveOf(items)[j]
  {
    if items != [] {
      LiveDistinct(items[1..]);
      LiveMembers(items[1..]);
      assert items[0].key !in LiveOf(items[1..]);
    }
  }

  /** The stage of a pass that has the finalizer of `key` to remove. */
  predicate Removing(h: Key, stage: Stage, key: Key) {
    match stage
    case PutBinding(_) => key == Binding(h)
    case PutAccount(_) => key == Account(h)
    case Release => key == h
    case _ => false
  }

  function Removed(stage: Stage): Stage {
    match stage
    case PutBinding(_) => GetAccount
    case PutAccount(_) => Release
    case _ => Done(Released)
  }

  /** The stage of a pass that has the objects of `kind` in `left` to delete. */
  function Deleting(kind: Kind, left: seq<Key>): Stage {
    if kind == InternalPage then DeletePages(left) else DeleteTranslations(left)
  }

  class ApiServer {
    var state: State

    constructor (state: State)
      ensures this.state == state
    {
      this.state := state;
    }

    function StageOf(h: Key): Stage
      requires h in state.passes
      reads this
    {
      state.passes[h].stage
    }

    /** Any number of steps that leave the pass over `h` alone may happen here; callers can rely on
        no more than that. */
    method OthersAct(h: Key)
      requires h in state.passes
      modifies this
      ensures Leads(h, old(state), state) && h in state.passes && state.passes[h] == old(state.passes[h])
    {
      LeadsNowhere(h, state);
    }

    /** One call of the pass. */
    method Call(h: Key, listing: seq<Key>, changed: bool)
      requires Enabled(state, HostProtocol.Call(h, listing, changed))
      modifies this
      ensures state == Next(old(state), HostProtocol.Call(h, listing, changed))
      ensures Leads(h, old(state), state)
    {
      LeadsStep(h, state, HostProtocol.Call(h, listing, changed));
      state := CallStep(state, h, listing, changed);
      state := state.(clock := state.clock + 1);
    }

    /** A reference does not resolve, or something else goes wrong between two calls. */
    method GiveUp(h: Key)
      requires h in state.passes && !StageOf(h).Done?
      modifies this
      ensures Leads(h, old(state), state) && h in state.passes && StageOf(h) == Done(Failed)
    {
      LeadsStep(h, state, Abort(h));
      state := Staged(state, h, Done(Failed));
      state := state.(clock := state.clock + 1);
    }

    method Get(h: Key, key: Key) returns (found: Option<Obj>)
      requires h in state.passes && LooksFor(h, StageOf(h), key)
      modifies this
      ensures Leads(h, old(state), state) && h in state.passes
      ensures StageOf(h) == AfterGet(old(StageOf(h)), found)
    {
      hide Leads;
      OthersAct(h);
      ghost var before := state;
      found := if key in state.store then Some(state.store[key]) else None;
      Call(h, [], false);
      LeadsOn(h, old(state), before, state);
    }

    method DeleteNext(h: Key, key: Key) returns (ok: bool)
      requires h in state.passes && Deletes(h, StageOf(h), key)
      modifies this
      ensures Leads(h, old(state), state) && h in state.passes
      ensures StageOf(h) == if ok then AfterDelete(old(StageOf(h))) else Done(Failed)
      ensures ok ==> key !in state.store || state.store[key].marked
    {
      hide Leads;
      OthersAct(h);
      ghost var before := state;
      ok := key in state.store;
      Call(h, [], false);
      LeadsOn(h, old(state), before, state);
    }

    /** The objects that the host index lists, in some order. */
    method List(h: Key, kind: Kind) returns (items: seq<Item>)
      requires h in state.passes
      requires kind == InternalPage || kind == InternalTranslation
      requires StageOf(h) == if kind == InternalPage then ListPages else ListTranslations
      modifies this
      ensures Leads(h, old(state), state) && h in state.passes
      ensures StageOf(h) == if items != [] then AfterItems(kind, items, 0)
                            else if kind == InternalPage then ListTranslations else GetDeployment
    {
      hide Leads;
      OthersAct(h);
      ghost var before := state;
      items := Items(h, kind);
      ghost var listed := Listed(state.store, h, kind);
      LiveListing(state.store, items, listed);
      assert listed != {} <==> items != [] by {
        if items != [] { assert items[0].key in listed; }
      }
      Call(h, LiveOf(items), false);
      LeadsOn(h, old(state), before, state);
    }

    method Items(h: Key, kind: Kind) returns (items: seq<Item>)
      ensures ListsOf(state.store, items, Listed(state.store, h, kind))
    {
      var keys := Listed(state.store, h, kind);
      items := [];
      var left := keys;
      while left != {}
        invariant left <= keys && ListsOf(state.store, items, keys - left)
        decreases left
      {
        var key :| key in left;
        assert keys - (left - {key}) == (keys - left) + {key};
        left := left - {key};
        items := items + [Item(key, state.store[key].marked)];
      }
      assert keys - left == keys;
    }

    method RemoveFinalizer(h: Key, key: Key) returns (ok: bool)
      requires h in state.passes && Removing(h, StageOf(h), key)
      modifies this
      ensures Leads(h, old(state), state) && h in state.passes
      ensures StageOf(h) == if ok then Removed(old(StageOf(h))) else Done(Failed)
      ensures ok ==> !Held(state.store, key)
    {
      hide Leads;
      OthersAct(h);
      ghost var before := state;
      Call(h, [], false);
      ok := StageOf(h) != Done(Failed);
      LeadsOn(h, old(state), before, state);
    }

    method AddFinalizer(h: Key) returns (ok: bool)
      requires h in state.passes && StageOf(h) == Adding
      modifies this
      ensures Leads(h, old(state), state) && h in state.passes
      ensures StageOf(h) == Done(if ok then Admitted else Failed)
      ensures ok ==> Held(state.store, h)
    {
      hide Leads;
      OthersAct(h);
      ghost var before := state;
      Call(h, [], false);
      ok := StageOf(h) != Done(Failed);
      LeadsOn(h, old(state), before, state);
    }

    /** Get, mutate, and write what changed, with others in between. */
    method CreateOrUpdate(h: Key) returns (ok: bool)
      requires h in state.passes && StageOf(h).Ensuring? && (StageOf(h).pre != [] || StageOf(h).k < FIXED)
      modifies this
      ensures Leads(h, old(state), state) && h in state.passes
      ensures StageOf(h) == if ok then Advance(old(StageOf(h)).pre, old(StageOf(h)).k) else Done(Failed)
    {
      hide Leads, HostProtocol.Ensure, Advance;
      OthersAct(h);
      ghost var s1 := state;
      Call(h, [], false);
      LeadsOn(h, old(state), s1, state);
      ghost var s2 := state;
      OthersAct(h);
      LeadsOn(h, old(state), s2, state);
      ghost var s3 := state;
      var changed: bool := *;
      var p := state.passes[h];
      EnsureLeavesPasses(state, h, p, [], changed);
      ok := HostProtocol.Ensure(state, h, p, NextKey(h, p.stage.pre, p.stage.k), p.stage.found, changed).1;
      Call(h, [], changed);
      LeadsOn(h, old(state), s3, state);
    }
  }

  predicate LooksFor(h: Key, stage: Stage, key: Key) {
    match stage
    case GetInternalHost => key == Own(h, InternalHost)
    case GetDeployment => key == Own(h, Deployment)
    case GetBinding => key == Binding(h)
    case GetAccount => key == Account(h)
    case _ => false
  }

  function AfterGet(stage: Stage, found: Option<Obj>): Stage {
    match stage
    case GetInternalHost =>
      if found.None? then ListPages else if found.value.marked then Done(Waited) else DeleteInternalHost
    case GetDeployment =>
      if found.None? then GetBinding else if found.value.marked then Done(Waited) else DeleteDeployment
    case GetBinding => if found.Some? && found.value.held then PutBinding(found.value) else GetAccount
    case _ => if found.Some? && found.value.held then PutAccount(found.value) else Release
  }

  function AfterDelete(stage: Stage): Stage {
    match stage
    case DeletePages(left) => if |left| <= 1 then Done(Deleted) else DeletePages(left[1..])
    case DeleteTranslations(left) => if |left| <= 1 then Done(Deleted) else DeleteTranslations(left[1..])
    case _ => Done(Deleted)
  }

  ghost predicate ListsOf(store: Store, items: seq<Item>, keys: set<Key>) {
    && (forall i :: 0 <= i < |items| ==> items[i].key in keys)
    && (forall key :: key in keys ==> key in store && Item(key, store[key].marked) in items)
    && (forall i :: 0 <= i < |items| ==> items[i].key in store && items[i].marked == store[items[i].key].marked)
    && (forall i, j :: 0 <= i < j < |items| ==> items[i].key != items[j].key)
  }

  lemma LiveListing(store: Store, items: seq<Item>, keys: set<Key>)
    requires ListsOf(store, items, keys)
    ensures IsListing(store, LiveOf(items), keys)
  {
    LiveMembers(items);
    LiveDistinct(items);
  }

  /** The stage of a pass when the first `i` of the listed `items` have been seen to. */
  function AfterItems(kind: Kind, items: seq<Item>, i: nat): Stage
    requires i <= |items|
  {
    if LiveOf(items) == [] then Done(Waited)
    else if LiveOf(items[i..]) == [] then Done(Deleted)
    else Deleting(kind, LiveOf(items[i..]))
  }

  // ---------- the reconcile method ----------

  /** The loop over the objects of a list result. */
  method DeleteItems(api: ApiServer, h: Key, kind: Kind, items: seq<Item>) returns (outcome: Outcome)
    requires kind == InternalPage || kind == InternalTranslation
    requires h in api.state.passes && items != [] && api.StageOf(h) == AfterItems(kind, items, 0)
    modifies api
    ensures Leads(h, old(api.state), api.state) && h in api.state.passes && api.StageOf(h) == Done(outcome)
    ensures outcome in {Deleted, Waited, Failed}
  {
    hide Leads, AfterItems, AfterDelete, Deletes, LiveOf;
    LeadsNowhere(h, api.state);
    for i := 0 to |items|
      invariant Leads(h, old(api.state), api.state)
      invariant h in api.state.passes && api.StageOf(h) == AfterItems(kind, items, i)
    {
      ItemSeen(h, kind, items, i);
      if !items[i].marked {
        ghost var before := api.state;
        var ok := api.DeleteNext(h, items[i].key);
        LeadsOn(h, old(api.state), before, api.state);
        if !ok {
          return Failed;
        }
      }
    }
    outcome := if forall i :: 0 <= i < |items| ==> items[i].marked then Waited else Deleted;
    AllSeen(kind, items);
  }

  /** A live item is the next to be deleted; a terminating one is passed over. */
  lemma ItemSeen(h: Key, kind: Kind, items: seq<Item>, i: nat)
    requires i < |items| && (kind == InternalPage || kind == InternalTranslation)
    ensures items[i].marked ==> AfterItems(kind, items, i + 1) == AfterItems(kind, items, i)
    ensures !items[i].marked ==>
      && Deletes(h, AfterItems(kind, items, i), items[i].key)
      && AfterDelete(AfterItems(kind, items, i)) == AfterItems(kind, items, i + 1)
  {
    assert items[i..][1..] == items[i + 1..];
    if !items[i].marked {
      LiveMembers(items);
      assert items[i] == Item(items[i].key, false);
    }
  }

  lemma AllSeen(kind: Kind, items: seq<Item>)
    ensures AfterItems(kind, items, |items|)
         == Done(if forall i :: 0 <= i < |items| ==> items[i].marked then Waited else Deleted)
  {
    LiveMembers(items);
    assert items[|items|..] == [];
    if LiveOf(items) == [] {
      forall i | 0 <= i < |items| ensures items[i].marked {
        assert items[i] == Item(items[i].key, items[i].marked);
      }
    } else {
      assert LiveOf(items)[0] in LiveOf(items);
    }
  }

  /** The finalizers come off the role binding and then the service account. */
  method CleanupRbacFinalizers(api: ApiServer, h: Key) returns (ok: bool)
    requires h in api.state.passes && api.StageOf(h) == GetBinding
    modifies api
    ensures Leads(h, old(api.state), api.state) && h in api.state.passes
    ensures api.StageOf(h) == if ok then Release else Done(Failed)
  {
    hide Leads;
    var binding := api.Get(h, Binding(h));
    if binding.Some? && binding.value.held {
      ghost var before := api.state;
      ok := api.RemoveFinalizer(h, Binding(h));
      LeadsOn(h, old(api.state), before, api.state);
      if !ok {
        return;
      }
    }
    ghost var before := api.state;
    var account := api.Get(h, Account(h));
    LeadsOn(h, old(api.state), before, api.state);
    if account.Some? && account.value.held {
      ghost var after := api.state;
      ok := api.RemoveFinalizer(h, Account(h));
      LeadsOn(h, old(api.state), after, api.state);
      return;
    }
    ok := true;
  }

  /** The pass over a deleted host: stage by stage, waiting at the first that is not empty. */
  method Teardown(api: ApiServer, h: Key) returns (outcome: Outcome)
    requires h in api.state.passes && api.StageOf(h) == GetInternalHost
    modifies api
    ensures Leads(h, old(api.state), api.state) && h in api.state.passes && api.StageOf(h) == Done(outcome)
    ensures outcome in {Deleted, Waited, Released, Failed}
    ensures outcome == Released ==> !Held(api.state.store, h)
  {
    hide Leads, AfterItems, LiveOf;
    var internalHost := api.Get(h, Own(h, InternalHost));
    ghost var s1 := api.state;
    if internalHost.Some? {
      if !internalHost.value.marked {
        var ok := api.DeleteNext(h, Own(h, InternalHost));
        LeadsOn(h, old(api.state), s1, api.state);
        return if ok then Deleted else Failed;
      }
      return Waited;
    }
    var pages := api.List(h, InternalPage);
    LeadsOn(h, old(api.state), s1, api.state);
    ghost var s2 := api.state;
    if |pages| > 0 {
      outcome := DeleteItems(api, h, InternalPage, pages);
      LeadsOn(h, old(api.state), s2, api.state);
      return;
    }
    var translations := api.List(h, InternalTranslation);
    LeadsOn(h, old(api.state), s2, api.state);
    ghost var s3 := api.state;
    if |translations| > 0 {
      outcome := DeleteItems(api, h, InternalTranslation, translations);
      LeadsOn(h, old(api.state), s3, api.state);
      return;
    }
    var deployment := api.Get(h, Own(h, Deployment));
    LeadsOn(h, old(api.state), s3, api.state);
    ghost var s4 := api.state;
    if deployment.Some? {
      if !deployment.value.marked {
        var ok := api.DeleteNext(h, Own(h, Deployment));
        LeadsOn(h, old(api.state), s4, api.state);
        return if ok then Deleted else Failed;
      }
      return Waited;
    }
    var clean := CleanupRbacFinalizers(api, h);
    LeadsOn(h, old(api.state), s4, api.state);
    ghost var s5 := api.state;
    if !clean {
      return Failed;
    }
    var gone := api.RemoveFinalizer(h, h);
    LeadsOn(h, old(api.state), s5, api.state);
    return if gone then Released else Failed;
  }

  /** The stage of a creating pass after its first `i` objects. */
  function Created(pre: seq<Key>, i: nat): Stage {
    if i < |pre| then Ensuring(pre[i..], 0)
    else if i - |pre| < FIXED then Ensuring([], i - |pre|)
    else Done(Complete)
  }

  lemma OneMoreCreated(pre: seq<Key>, i: nat)
    requires i < |pre| + FIXED
    ensures var stage := Created(pre, i);
      && stage.Ensuring? && (stage.pre != [] || stage.k < FIXED)
      && Advance(stage.pre, stage.k) == Created(pre, i + 1)
  {
    if i < |pre| { assert pre[i..][1..] == pre[i + 1..]; }
  }

  /** The creates and updates of a pass, in order; it may give up before any of them. */
  method CreateAll(api: ApiServer, h: Key) returns (outcome: Outcome)
    requires h in api.state.passes && api.StageOf(h).Ensuring? && api.StageOf(h).k == 0
    modifies api
    ensures Leads(h, old(api.state), api.state) && h in api.state.passes && api.StageOf(h) == Done(outcome)
    ensures outcome in {Complete, Failed}
    ensures Inv(old(api.state)) && outcome == Complete ==>
      exists run :: Links(run, h, old(api.state), api.state)
                    && AllCreated(run, h, old(api.state.passes[h].host.uid), old(api.StageOf(h).pre))
  {
    ghost var before := api.state;
    hide Leads, Created, Advance;
    LeadsNowhere(h, api.state);
    var pre := api.StageOf(h).pre;
    NoneCreated(pre);
    for i := 0 to |pre| + FIXED
      invariant Leads(h, old(api.state), api.state) && h in api.state.passes
      invariant api.StageOf(h) == Created(pre, i)
    {
      OneMoreCreated(pre, i);
      ghost var mid := api.state;
      var resolved: bool := *;
      if !resolved {
        api.GiveUp(h);
        LeadsOn(h, old(api.state), mid, api.state);
        return Failed;
      }
      var ok := api.CreateOrUpdate(h);
      LeadsOn(h, old(api.state), mid, api.state);
      if !ok {
        return Failed;
      }
    }
    if Inv(before) {
      LeadsCreates(h, before, api.state, pre);
    }
    return Complete;
  }

  lemma NoneCreated(pre: seq<Key>)
    ensures Created(pre, 0) == Ensuring(pre, 0) && Created(pre, |pre| + FIXED) == Done(Complete)
  {
  }

  /** A pass over a host just read. Whatever others do between its calls, it is a run of the
      protocol, from which it keeps all invariants; and it ends with the outcome it reports. It
      adds the finalizer if it reports so, has created everything if it reports completion, and has
      taken the finalizer off if it reports the release. */
  method Reconcile(api: ApiServer, h: Key, pre: seq<Key>) returns (outcome: Outcome)
    requires h in api.state.passes
    requires api.StageOf(h) == FirstStage(api.state.passes[h].host, pre)
    modifies api
    ensures Leads(h, old(api.state), api.state) && h in api.state.passes && api.StageOf(h) == Done(outcome)
    ensures Inv(old(api.state)) ==> Inv(api.state)
    ensures outcome == Admitted ==> Held(api.state.store, h)
    ensures outcome == Released ==> !Held(api.state.store, h)
    ensures var host := old(api.state.passes[h].host);
      Inv(old(api.state)) && outcome == Complete && !host.marked ==>
        exists run :: Links(run, h, old(api.state), api.state) && AllCreated(run, h, host.uid, pre)
  {
    hide Leads, Inv, Links, AllCreated;
    ghost var before := api.state;
    var host := api.state.passes[h].host;
    if !host.marked {
      if !host.held {
        var ok := api.AddFinalizer(h);
        outcome := if ok then Admitted else Failed;
      } else {
        outcome := CreateAll(api, h);
      }
    } else if host.held {
      outcome := Teardown(api, h);
    } else {
      LeadsNowhere(h, api.state);
      outcome := Complete;
    }
    if Inv(before) {
      LeadsKeepsInv(h, before, api.state);
    }
  }

  lemma LeadsKeepsInv(h: Key, s: State, t: State)
    requires Inv(s) && Leads(h, s, t)
    ensures Inv(t)
  {
    var run :| Links(run, h, s, t);
    PathKeepsInv(run, |run| - 1);
  }

  lemma LeadsCreates(h: Key, s: State, t: State, pre: seq<Key>)
    requires Inv(s) && Leads(h, s, t)
    requires h in s.passes && s.passes[h].stage == Ensuring(pre, 0) && h in t.passes && t.passes[h].stage == Done(Complete)
    ensures exists run :: Links(run, h, s, t) && AllCreated(run, h, s.passes[h].host.uid, pre)
  {
    var run :| Links(run, h, s, t);
    CompletePassCreated(run, h, pre);
  }
}
