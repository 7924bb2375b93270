/** What a pass over a live host has created when it completes. */
module Creation {
  import opened Options
  import opened HostProtocol
  import opened HostSafety

  // ---------- runs from any state ----------

  ghost predicate Path(run: seq<State>) {
    run != [] && forall i :: 0 <= i < |run| - 1 ==> Follows(run[i], run[i + 1])
  }

  /** A stretch of steps throughout which the pass over `h` is in flight. */
  ghost predicate During(run: seq<State>, h: Key) {
    Path(run) && forall k :: 0 <= k < |run| ==> h in run[k].passes
  }

  lemma {:induction false} PathKeepsInv(run: seq<State>, k: nat)
    requires Path(run) && k < |run| && Inv(run[0])
    ensures Inv(run[k])
  {
    if k > 0 {
      PathKeepsInv(run, k - 1);
      assert Follows(run[k - 1], run[k - 1 + 1]);
      var a :| Enabled(run[k - 1], a) && run[k] == Next(run[k - 1], a);
      StepKeepsInv(run[k - 1], a);
    }
  }

  // ---------- what is created ----------

  /** The object is there as the host wants it: controlled by it, but for the role binding; held by
      the finalizer, if it grants permissions; naming the host, if it is a page or translation. */
  predicate Has(s: State, h: Key, uid: nat, key: Key) {
    && key in s.store
    && (key.kind != RoleBinding ==> s.store[key].owner == Some(uid))
    && (key.kind == ServiceAccount || key.kind == RoleBinding ==> s.store[key].held)
    && (key.kind == InternalPage || key.kind == InternalTranslation ==> s.store[key].hostRef == h.name)
  }

  ghost predicate Met(run: seq<State>, h: Key, uid: nat, key: Key, k: nat) {
    exists j :: 0 <= j <= k && j < |run| && Has(run[j], h, uid, key)
  }

  /** All that a pass creates, in order, after the pages and translations in `pre`. */
  function Wanted(h: Key, pre: seq<Key>): seq<Key> {
    pre + [Own(h, ConfigMap), Account(h), Binding(h), Own(h, Deployment), Own(h, Service), Own(h, InternalHost)]
  }

  ghost predicate AllMet(run: seq<State>, h: Key, uid: nat, pre: seq<Key>, count: int, k: nat) {
    forall i :: 0 <= i < count && i < |Wanted(h, pre)| ==> Met(run, h, uid, Wanted(h, pre)[i], k)
  }

  /** In this stage the pass still has `left` and the owned objects from `n` on to create. */
  predicate AtPoint(pre: seq<Key>, left: seq<Key>, n: nat) {
    && |left| <= |pre| && left == pre[|pre| - |left|..]
    && (left != [] ==> n == 0) && n < FIXED
  }

  lemma NextIsWanted(h: Key, pre: seq<Key>, left: seq<Key>, n: nat)
    requires AtPoint(pre, left, n)
    ensures 0 <= |pre| - |left| + n < |Wanted(h, pre)|
    ensures NextKey(h, left, n) == Wanted(h, pre)[|pre| - |left| + n]
  {
  }

  /** After the next object the pass is one further, or complete with the last one. */
  lemma AdvanceCounts(h: Key, pre: seq<Key>, left: seq<Key>, n: nat)
    requires AtPoint(pre, left, n)
    ensures match Advance(left, n)
            case Ensuring(l, m) => AtPoint(pre, l, m) && |pre| - |l| + m == |pre| - |left| + n + 1
            case Done(o) => o == Complete && |pre| - |left| + n + 1 == |Wanted(h, pre)|
            case _ => false
  {
    if left != [] {
      assert left[1..] == pre[|pre| - |left| + 1..];
    }
  }

  ghost predicate Progress(run: seq<State>, k: nat, h: Key, uid: nat, pre: seq<Key>)
    requires k < |run| && h in run[k].passes
  {
    var p := run[k].passes[h];
    && p.host.uid == uid
    && match p.stage
       case Ensuring(left, n) => AtPoint(pre, left, n) && AllMet(run, h, uid, pre, |pre| - |left| + n, k)
       case Writing(left, n, found) =>
         && AtPoint(pre, left, n) && AllMet(run, h, uid, pre, |pre| - |left| + n, k)
         && (found.Some? ==> WasRead(run, NextKey(h, left, n), found.value, k))
       case Done(o) => o == Complete ==> AllMet(run, h, uid, pre, |Wanted(h, pre)|, k)
       case _ => false
  }

  ghost predicate WasRead(run: seq<State>, key: Key, found: Obj, k: nat) {
    exists j :: 0 <= j <= k && j < |run| && key in run[j].store && run[j].store[key] == found
  }

  lemma AllMetLater(run: seq<State>, h: Key, uid: nat, pre: seq<Key>, count: int, k: nat)
    requires AllMet(run, h, uid, pre, count, k)
    ensures AllMet(run, h, uid, pre, count, k + 1)
  {
    hide Has, Wanted;
    forall i | 0 <= i < count && i < |Wanted(h, pre)| ensures Met(run, h, uid, Wanted(h, pre)[i], k + 1) {
      assert Met(run, h, uid, Wanted(h, pre)[i], k);
    }
  }

  lemma OneMoreMet(run: seq<State>, h: Key, uid: nat, pre: seq<Key>, count: int, k: nat)
    requires AllMet(run, h, uid, pre, count, k) && 0 <= count < |Wanted(h, pre)| && Met(run, h, uid, Wanted(h, pre)[count], k)
    ensures AllMet(run, h, uid, pre, count + 1, k)
  {
    hide Met, Wanted;
  }

  /** A create or update that succeeds leaves the object as the host wants it, or found it so. */
  lemma EnsureHas(s: State, h: Key, p: Pass, key: Key, found: Option<Obj>, changed: bool)
    requires key in s.store ==> Persists(s.store[key])
    requires found.Some? ==> Faithful(s.store, key, found.value, s.clock)
    ensures var (u, ok) := Ensure(s, h, p, key, found, changed);
      ok ==> Has(u, h, p.host.uid, key) || (found.Some? && Mutated(h, p.host.uid, key, found.value) == found.value)
  {
  }

  lemma FoundAsWanted(run: seq<State>, h: Key, uid: nat, key: Key, found: Obj, k: nat)
    requires WasRead(run, key, found, k) && Mutated(h, uid, key, found) == found
    ensures Met(run, h, uid, key, k)
  {
    var j :| 0 <= j <= k && j < |run| && key in run[j].store && run[j].store[key] == found;
    assert Has(run[j], h, uid, key);
  }

  /** Steps other than its own calls leave a pass alone or make it fail. */
  lemma OtherStep(s: State, a: Action, h: Key)
    requires Enabled(s, a) && h in s.passes && h in Next(s, a).passes && !(a.Call? && a.h == h)
    ensures var t := Next(s, a);
      t.passes[h] == s.passes[h] || t.passes[h] == s.passes[h].(stage := Done(Failed))
  {
    hide CallStep, Total;
    if a.Call? { CallOthers(s, a.h, a.listing, a.changed); }
  }

  lemma ReadProgress(run: seq<State>, k: nat, h: Key, uid: nat, pre: seq<Key>, listing: seq<Key>, changed: bool)
    requires k + 1 < |run| && h in run[k].passes && h in run[k + 1].passes && Progress(run, k, h, uid, pre)
    requires Enabled(run[k], Call(h, listing, changed)) && run[k + 1] == Next(run[k], Call(h, listing, changed))
    requires run[k].passes[h].stage.Ensuring?
    ensures Progress(run, k + 1, h, uid, pre)
  {
    hide AllMet, AtPoint;
    var s, p := run[k], run[k].passes[h];
    AllMetLater(run, h, uid, pre, |pre| - |p.stage.pre| + p.stage.k, k);
    assert p.stage.pre != [] || p.stage.k < FIXED by { PointIsOpen(pre, p.stage.pre, p.stage.k); }
    var key := NextKey(h, p.stage.pre, p.stage.k);
    if key in s.store {
      assert run[k].store[key] == s.store[key];
      assert WasRead(run, key, s.store[key], k + 1);
    }
  }

  lemma PointIsOpen(pre: seq<Key>, left: seq<Key>, n: nat)
    requires AtPoint(pre, left, n)
    ensures n < FIXED
  {
  }

  lemma WriteProgress(run: seq<State>, k: nat, h: Key, uid: nat, pre: seq<Key>, listing: seq<Key>, changed: bool)
    requires k + 1 < |run| && h in run[k].passes && h in run[k + 1].passes && Progress(run, k, h, uid, pre)
    requires Enabled(run[k], Call(h, listing, changed)) && run[k + 1] == Next(run[k], Call(h, listing, changed))
    requires run[k].passes[h].stage.Writing? && Inv(run[k])
    ensures Progress(run, k + 1, h, uid, pre)
  {
    hide AllMet, AtPoint, Ensure, Wanted, Has, Mutated, Met, WasRead, Inv, PassShape, NextKey, Advance;
    var s, p := run[k], run[k].passes[h];
    var left, n := p.stage.pre, p.stage.k;
    PointIsOpen(pre, left, n);
    var key := NextKey(h, left, n);
    WriteFacts(s, h, key);
    var (u, ok) := Ensure(s, h, p, key, p.stage.found, changed);
    EnsureLeavesPasses(s, h, p, listing, changed);
    EnsureHas(s, h, p, key, p.stage.found, changed);
    if ok {
      var count := |pre| - |left| + n;
      NextIsWanted(h, pre, left, n);
      AdvanceCounts(h, pre, left, n);
      SameStore(run, k, h, listing, changed, u);
      if Has(u, h, uid, key) {
        NowMet(run, h, uid, key, u, k + 1);
      } else {
        FoundAsWanted(run, h, uid, key, p.stage.found.value, k);
        MetLater(run, h, uid, key, k);
      }
      AllMetLater(run, h, uid, pre, count, k);
      OneMoreMet(run, h, uid, pre, count, k + 1);
    }
  }

  lemma NowMet(run: seq<State>, h: Key, uid: nat, key: Key, u: State, k: nat)
    requires k < |run| && run[k].store == u.store && Has(u, h, uid, key)
    ensures Met(run, h, uid, key, k)
  {
    assert Has(run[k], h, uid, key);
  }

  lemma MetLater(run: seq<State>, h: Key, uid: nat, key: Key, k: nat)
    requires Met(run, h, uid, key, k)
    ensures Met(run, h, uid, key, k + 1)
  {
    hide Has;
  }

  lemma SameStore(run: seq<State>, k: nat, h: Key, listing: seq<Key>, changed: bool, u: State)
    requires k + 1 < |run| && h in run[k].passes && run[k].passes[h].stage.Writing?
    requires Enabled(run[k], Call(h, listing, changed)) && run[k + 1] == Next(run[k], Call(h, listing, changed))
    requires var p := run[k].passes[h];
      && (p.stage.pre != [] || p.stage.k < FIXED)
      && Ensure(run[k], h, p, NextKey(h, p.stage.pre, p.stage.k), p.stage.found, changed) == (u, true)
    ensures run[k + 1].store == u.store
    ensures h in run[k + 1].passes
    ensures var p := run[k].passes[h];
      run[k + 1].passes[h] == p.(stage := Advance(p.stage.pre, p.stage.k))
  {
    WritingEffect(run[k], h, listing, changed);
    hide Ensure, NextKey, Advance;
  }

  lemma WriteFacts(s: State, h: Key, key: Key)
    requires Inv(s) && h in s.passes && s.passes[h].stage.Writing?
    requires s.passes[h].stage.pre != [] || s.passes[h].stage.k < FIXED
    requires key == NextKey(h, s.passes[h].stage.pre, s.passes[h].stage.k)
    ensures key in s.store ==> Persists(s.store[key])
    ensures s.passes[h].stage.found.Some? ==> Faithful(s.store, key, s.passes[h].stage.found.value, s.clock)
  {
    PassOf(s, h);
  }

  lemma StepProgress(run: seq<State>, k: nat, h: Key, uid: nat, pre: seq<Key>, a: Action)
    requires k + 1 < |run| && h in run[k].passes && h in run[k + 1].passes && Progress(run, k, h, uid, pre)
    requires Enabled(run[k], a) && run[k + 1] == Next(run[k], a) && Inv(run[k])
    ensures Progress(run, k + 1, h, uid, pre)
  {
    var p := run[k].passes[h];
    if a.Call? && a.h == h {
      if p.stage.Ensuring? {
        ReadProgress(run, k, h, uid, pre, a.listing, a.changed);
      } else {
        WriteProgress(run, k, h, uid, pre, a.listing, a.changed);
      }
    } else {
      hide AllMet, AtPoint, Inv, Next, Wanted;
      OtherStep(run[k], a, h);
      match p.stage {
        case Ensuring(left, n) => AllMetLater(run, h, uid, pre, |pre| - |left| + n, k);
        case Writing(left, n, found) => AllMetLater(run, h, uid, pre, |pre| - |left| + n, k);
        case Done(o) => if o == Complete { AllMetLater(run, h, uid, pre, |Wanted(h, pre)|, k); }
      }
    }
  }

  lemma {:induction false} PassProgress(run: seq<State>, k: nat, h: Key, pre: seq<Key>)
    requires During(run, h) && Inv(run[0]) && run[0].passes[h].stage == Ensuring(pre, 0) && k < |run|
    ensures Progress(run, k, h, run[0].passes[h].host.uid, pre)
  {
    hide Inv, Enabled, Next, Progress;
    if k == 0 {
      BeginProgress(run, h, pre);
    } else {
      PassProgress(run, k - 1, h, pre);
      PathKeepsInv(run, k - 1);
      assert Follows(run[k - 1], run[k - 1 + 1]);
      var a :| Enabled(run[k - 1], a) && run[k] == Next(run[k - 1], a);
      StepProgress(run, k - 1, h, run[0].passes[h].host.uid, pre, a);
    }
  }

  lemma BeginProgress(run: seq<State>, h: Key, pre: seq<Key>)
    requires run != [] && h in run[0].passes && run[0].passes[h].stage == Ensuring(pre, 0)
    ensures Progress(run, 0, h, run[0].passes[h].host.uid, pre)
  {
    assert pre == pre[0..];
  }

  /** Every page and translation of the pass, and each of the six objects that a host owns, was
      there at some moment of the stretch, as the host wants it. */
  ghost predicate AllCreated(run: seq<State>, h: Key, uid: nat, pre: seq<Key>) {
    forall key :: key in pre
        || key in {Key(ConfigMap, h.ns, h.name), Key(ServiceAccount, h.ns, h.name),
                   Key(RoleBinding, "", h.name + "-" + h.ns), Key(Deployment, h.ns, h.name),
                   Key(Service, h.ns, h.name), Key(InternalHost, h.ns, h.name)}
      ==> exists k :: 0 <= k < |run| && Has(run[k], h, uid, key)
  }

  /** A pass that goes from its first create or update to completion has created everything,
      whatever others do meanwhile. */
  lemma CompletePassCreated(run: seq<State>, h: Key, pre: seq<Key>)
    requires During(run, h) && Inv(run[0]) && run[0].passes[h].stage == Ensuring(pre, 0)
    requires run[|run| - 1].passes[h].stage == Done(Complete)
    ensures AllCreated(run, h, run[0].passes[h].host.uid, pre)
  {
    hide Inv, Has;
    var last, uid, wanted := |run| - 1, run[0].passes[h].host.uid, Wanted(h, pre);
    PassProgress(run, last, h, pre);
    forall key | key in wanted ensures exists k :: 0 <= k < |run| && Has(run[k], h, uid, key) {
      var i :| 0 <= i < |wanted| && wanted[i] == key;
      assert Met(run, h, uid, Wanted(h, pre)[i], last);
    }
    assert wanted[|pre|] == Key(ConfigMap, h.ns, h.name) && wanted[|pre| + 1] == Key(ServiceAccount, h.ns, h.name);
    assert wanted[|pre| + 2] == Key(RoleBinding, "", h.name + "-" + h.ns);
    assert wanted[|pre| + 3] == Key(Deployment, h.ns, h.name) && wanted[|pre| + 4] == Key(Service, h.ns, h.name);
    assert wanted[|pre| + 5] == Key(InternalHost, h.ns, h.name);
    assert forall key :: key in pre ==> key in wanted;
  }

  /** The same for a stretch of any run of the protocol. */
  lemma RunPassCreated(run: seq<State>, i: nat, j: nat, h: Key, pre: seq<Key>)
    requires IsRun(run) && i <= j < |run| && forall k :: i <= k <= j ==> h in run[k].passes
    requires run[i].passes[h].stage == Ensuring(pre, 0) && run[j].passes[h].stage == Done(Complete)
    ensures AllCreated(run[i..j + 1], h, run[i].passes[h].host.uid, pre)
  {
    var part := run[i..j + 1];
    forall k | 0 <= k < |part| - 1 ensures Follows(part[k], part[k + 1]) {
      assert Follows(run[i + k], run[i + k + 1]);
    }
    RunKeepsInv(run, i);
    hide Inv;
    CompletePassCreated(part, h, pre);
  }
}
