/** The lock-protected memo cells of the host reconciler, with any number of callers.

    A caller checks the cell under the read lock; when it is set it releases the lock and then
    reads the cell again, unlocked; otherwise it takes the write lock, computes the value, stores
    it without a second check and returns what the cell holds. */
module MemoCells {
  import opened Options

  type Caller = nat

  datatype Pc<T> =
    | Idle
    | Reading
    | SawSet
    | SawUnset
    | Rereading
    | Waiting
    | Computing
    | Storing(value: T)
    | Stored
    | Returned(value: T)
    | Errored

  /** `unset` is the zero value of the cell. `result` is what computing the default yields: a
      value, or an error when it cannot be encoded. */
  datatype Cell<T> = Cell(unset: T, result: Option<T>, memo: T,
                          readers: set<Caller>, writer: Option<Caller>, pcs: map<Caller, Pc<T>>)

  function At<T>(c: Cell<T>, t: Caller): Pc<T> {
    if t in c.pcs then c.pcs[t] else Idle
  }

  function Goto<T>(c: Cell<T>, t: Caller, pc: Pc<T>): Cell<T> {
    c.(pcs := c.pcs[t := pc])
  }

  predicate CanStep<T(==)>(c: Cell<T>, t: Caller) {
    match At(c, t)
    case Idle => c.writer.None?
    case Waiting => c.writer.None? && c.readers == {}
    case _ => true
  }

  /** The next atomic step of caller `t`. */
  function Step<T(==)>(c: Cell<T>, t: Caller): Cell<T>
    requires CanStep(c, t)
  {
    match At(c, t)
    case Idle => Goto(c.(readers := c.readers + {t}), t, Reading)
    case Reading => Goto(c, t, if c.memo != c.unset then SawSet else SawUnset)
    case SawSet => Goto(c.(readers := c.readers - {t}), t, Rereading)
    case SawUnset => Goto(c.(readers := c.readers - {t}), t, Waiting)
    case Rereading => Goto(c, t, Returned(c.memo))
    case Waiting => Goto(c.(writer := Some(t)), t, Computing)
    case Computing =>
      if c.result.Some? then Goto(c, t, Storing(c.result.value)) else Goto(c.(writer := None), t, Errored)
    case Storing(v) => Goto(c.(memo := v), t, Stored)
    case Stored => Goto(c.(writer := None), t, Returned(c.memo))
    case Returned(_) => Goto(c, t, Idle)
    case Errored => Goto(c, t, Idle)
  }

  ghost predicate IsRun<T(!new)>(run: seq<Cell<T>>) {
    && run != []
    && run[0].memo == run[0].unset && run[0].readers == {} && run[0].writer == None && run[0].pcs == map[]
    && forall i :: 0 <= i < |run| - 1 ==> Follows(run[i], run[i + 1])
  }

  ghost predicate Follows<T(!new)>(c: Cell<T>, d: Cell<T>) {
    exists t :: CanStep(c, t) && d == Step(c, t)
  }

  predicate Writing<T>(pc: Pc<T>) {
    pc.Computing? || pc.Storing? || pc.Stored?
  }

  /** What a caller at `pc` may rely on. */
  ghost predicate Sound<T(!new)>(c: Cell<T>, t: Caller) {
    match At(c, t)
    case SawSet => Some(c.memo) == c.result && t in c.readers
    case Rereading => Some(c.memo) == c.result
    case Storing(v) => Some(v) == c.result
    case Stored => Some(c.memo) == c.result
    case Returned(v) => Some(v) == c.result
    case Errored => c.result.None?
    case _ => true
  }

  ghost predicate Inv<T(!new)>(c: Cell<T>) {
    && (c.memo == c.unset || Some(c.memo) == c.result)
    && (forall t: Caller :: Sound(c, t))
    && (forall t: Caller :: Writing(At(c, t)) <==> c.writer == Some(t))
    && (forall t: Caller :: t in c.readers <==> At(c, t).Reading? || At(c, t).SawSet? || At(c, t).SawUnset?)
    && (c.writer.Some? ==> c.readers == {})
  }

  lemma StepKeepsInv<T(!new)>(c: Cell<T>, t: Caller)
    requires Inv(c) && CanStep(c, t)
    ensures Inv(Step(c, t))
    ensures Step(c, t).unset == c.unset && Step(c, t).result == c.result
    ensures c.memo != c.unset ==> Step(c, t).memo == c.memo
  {
    var d := Step(c, t);
    assert Sound(c, t);
    assert Writing(At(c, t)) <==> c.writer == Some(t);
    forall u: Caller ensures Sound(d, u)
      ensures Writing(At(d, u)) <==> d.writer == Some(u)
      ensures u in d.readers <==> At(d, u).Reading? || At(d, u).SawSet? || At(d, u).SawUnset?
    {
      assert Sound(c, u);
      assert Writing(At(c, u)) <==> c.writer == Some(u);
      assert u in c.readers <==> At(c, u).Reading? || At(c, u).SawSet? || At(c, u).SawUnset?;
    }
  }

  lemma {:induction false} RunKeepsInv<T(!new)>(run: seq<Cell<T>>, i: nat)
    requires IsRun(run) && i < |run|
    ensures Inv(run[i]) && run[i].unset == run[0].unset && run[i].result == run[0].result
  {
    if i > 0 {
      RunKeepsInv(run, i - 1);
      assert Follows(run[i - 1], run[i - 1 + 1]);
      var t :| CanStep(run[i - 1], t) && run[i] == Step(run[i - 1], t);
      StepKeepsInv(run[i - 1], t);
    }
  }

  /** The cell is a constant once it is set: under every interleaving of any number of callers it
      is unset or holds the configured default, every successful return yields the default, and a
      return fails only when the default cannot be computed. */
  lemma MemoIsConstant<T(!new)>(run: seq<Cell<T>>, i: nat, t: Caller)
    requires IsRun(run) && i < |run|
    ensures var c := run[i];
      && (c.memo == c.unset || Some(c.memo) == run[0].result)
      && (At(c, t).Returned? ==> Some(At(c, t).value) == run[0].result)
      && (At(c, t).Errored? ==> run[0].result.None?)
  {
    RunKeepsInv(run, i);
    assert Sound(run[i], t);
  }

  /** Once set, it stays set to the same value. */
  lemma {:induction false} MemoStaysSet<T(!new)>(run: seq<Cell<T>>, i: nat, j: nat)
    requires IsRun(run) && i <= j < |run| && run[i].memo != run[i].unset
    ensures run[j].memo == run[i].memo
    decreases j
  {
    if i < j {
      MemoStaysSet(run, i, j - 1);
      RunKeepsInv(run, j - 1);
      RunKeepsInv(run, i);
      assert Follows(run[j - 1], run[j - 1 + 1]);
      var t :| CanStep(run[j - 1], t) && run[j] == Step(run[j - 1], t);
      StepKeepsInv(run[j - 1], t);
    }
  }

  /** At most one caller computes and stores at a time, and none while another reads. */
  lemma WriterIsAlone<T(!new)>(run: seq<Cell<T>>, i: nat, t: Caller, u: Caller)
    requires IsRun(run) && i < |run| && Writing(At(run[i], t)) && t != u
    ensures !Writing(At(run[i], u)) && !At(run[i], u).Reading? && !At(run[i], u).SawSet? && !At(run[i], u).SawUnset?
  {
    RunKeepsInv(run, i);
    assert Writing(At(run[i], t)) <==> run[i].writer == Some(t);
    assert Writing(At(run[i], u)) <==> run[i].writer == Some(u);
    assert u !in run[i].readers;
  }

  // ---------- every call is answered ----------

  predicate Active<T>(pc: Pc<T>) {
    !pc.Idle? && !pc.Returned? && !pc.Errored?
  }

  /** The most steps that a caller at `pc` still takes before its call ends. */
  function Rank<T>(pc: Pc<T>): nat {
    match pc
    case Idle | Returned(_) | Errored => 0
    case Stored | Rereading => 1
    case Storing(_) | SawSet => 2
    case Computing => 3
    case Waiting => 4
    case SawUnset => 5
    case Reading => 6
  }

  /** The most steps that the callers below `n` still take. */
  function Work<T>(c: Cell<T>, n: nat): nat {
    if n == 0 then 0 else Work(c, n - 1) + Rank(At(c, n - 1))
  }

  ghost predicate CallersBelow<T(!new)>(c: Cell<T>, n: nat) {
    forall t :: t in c.pcs ==> t < n
  }

  /** Some call moves on; none begins. */
  ghost predicate MovesOn<T(!new)>(c: Cell<T>, d: Cell<T>) {
    exists t :: CanStep(c, t) && Active(At(c, t)) && d == Step(c, t)
  }

  ghost predicate Stuck<T(!new)>(c: Cell<T>) {
    forall t: Caller :: Active(At(c, t)) ==> !CanStep(c, t)
  }

  ghost predicate Quiet<T(!new)>(c: Cell<T>) {
    forall t: Caller :: !Active(At(c, t))
  }

  /** The locks never block all callers: whoever is waited for can step. */
  lemma NoDeadlock<T(!new)>(c: Cell<T>, t: Caller) returns (u: Caller)
    requires Inv(c) && Active(At(c, t))
    ensures Active(At(c, u)) && CanStep(c, u)
  {
    u := t;
    if !CanStep(c, t) {
      if c.writer.Some? {
        u := c.writer.value;
        assert Writing(At(c, u)) <==> c.writer == Some(u);
      } else {
        u :| u in c.readers;
        assert u in c.readers <==> At(c, u).Reading? || At(c, u).SawSet? || At(c, u).SawUnset?;
      }
    }
  }

  lemma {:induction false} WorkFalls<T>(c: Cell<T>, d: Cell<T>, t: Caller, n: nat)
    requires forall u: Caller :: u != t ==> At(d, u) == At(c, u)
    requires Rank(At(d, t)) < Rank(At(c, t))
    ensures if t < n then Work(d, n) < Work(c, n) else Work(d, n) == Work(c, n)
  {
    if n > 0 {
      WorkFalls(c, d, t, n - 1);
    }
  }

  /** A call that moves on has less to do, and other callers stay where they are. */
  lemma MovesOnWorks<T(!new)>(c: Cell<T>, d: Cell<T>, n: nat) returns (t: Caller)
    requires MovesOn(c, d) && CallersBelow(c, n)
    ensures CanStep(c, t) && Active(At(c, t)) && d == Step(c, t)
    ensures Work(d, n) < Work(c, n) && CallersBelow(d, n)
    ensures !At(d, t).Idle? && forall u: Caller :: u != t ==> At(d, u) == At(c, u)
  {
    hide Work, Step, At, Rank, Active;
    t :| CanStep(c, t) && Active(At(c, t)) && d == Step(c, t);
    StepIsLocal(c, t);
    WorkFalls(c, d, t, n);
  }

  lemma StepIsLocal<T>(c: Cell<T>, t: Caller)
    requires CanStep(c, t) && Active(At(c, t))
    ensures t in c.pcs && Step(c, t).pcs.Keys == c.pcs.Keys
    ensures Rank(At(Step(c, t), t)) < Rank(At(c, t)) && !At(Step(c, t), t).Idle?
    ensures forall u: Caller :: u != t ==> At(Step(c, t), u) == At(c, u)
  {
  }

  /** From moment `i` on no call begins. */
  ghost predicate OnlyMovesOn<T(!new)>(run: seq<Cell<T>>, i: nat) {
    forall j :: i <= j < |run| - 1 ==> MovesOn(run[j], run[j + 1])
  }

  lemma {:induction false} CallsGoOn<T(!new)>(run: seq<Cell<T>>, i: nat, j: nat, n: nat)
    requires i <= j < |run| && OnlyMovesOn(run, i) && CallersBelow(run[i], n)
    ensures Work(run[j], n) + (j - i) <= Work(run[i], n) && CallersBelow(run[j], n)
    ensures forall t: Caller :: Active(At(run[i], t)) ==> !At(run[j], t).Idle?
    decreases j
  {
    if i < j {
      CallsGoOn(run, i, j - 1, n);
      assert MovesOn(run[j - 1], run[j - 1 + 1]);
      var t := MovesOnWorks(run[j - 1], run[j], n);
    }
  }

  /** Every call is answered. Once no call begins, the calls under way take no more steps than
      their `Work`, and when none of them can step any more each has returned the default, or the
      error if there is no default to compute. */
  lemma CallsReturn<T(!new)>(run: seq<Cell<T>>, i: nat, n: nat)
    requires IsRun(run) && i < |run| && OnlyMovesOn(run, i) && CallersBelow(run[i], n)
    ensures |run| - 1 - i <= Work(run[i], n)
    ensures Stuck(run[|run| - 1]) ==>
      forall t: Caller :: Active(At(run[i], t)) ==>
        At(run[|run| - 1], t) == match run[0].result case Some(v) => Returned(v) case None => Errored
  {
    var last := |run| - 1;
    CallsGoOn(run, i, last, n);
    RunKeepsInv(run, last);
    if Stuck(run[last]) {
      forall t: Caller | Active(At(run[i], t))
        ensures At(run[last], t) == match run[0].result case Some(v) => Returned(v) case None => Errored
      {
        if Active(At(run[last], t)) {
          var u := NoDeadlock(run[last], t);
        }
        MemoIsConstant(run, last, t);
      }
    }
  }

  /** And there is a way on from every reachable state to one in which all calls have ended. */
  lemma {:induction false} CallsCanReturn<T(!new)>(run: seq<Cell<T>>, n: nat) returns (more: seq<Cell<T>>)
    requires IsRun(run) && CallersBelow(run[|run| - 1], n)
    ensures run <= more && IsRun(more) && OnlyMovesOn(more, |run| - 1)
    ensures Quiet(more[|more| - 1])
    decreases Work(run[|run| - 1], n)
  {
    var last := |run| - 1;
    more := run;
    RunKeepsInv(run, last);
    if !Quiet(run[last]) {
      var t: Caller :| Active(At(run[last], t));
      var u := NoDeadlock(run[last], t);
      var next := Step(run[last], u);
      assert MovesOn(run[last], next) && Follows(run[last], next);
      var v := MovesOnWorks(run[last], next, n);
      more := CallsCanReturn(run + [next], n);
      forall j | last <= j < |more| - 1 ensures MovesOn(more[j], more[j + 1]) {
        assert more[last] == run[last] && more[last + 1] == next;
      }
    }
  }
}
