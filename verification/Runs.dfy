/** The invariants of the readiness graph hold in every state of every run. */
module Runs {
  import opened Objects
  import opened Readiness

  lemma {:induction false} RunKeepsInv(run: seq<State>, k: nat)
    requires IsRun(run) && k < |run|
    ensures Inv(run[k])
  {
    if k > 0 {
      RunKeepsInv(run, k - 1);
      assert Follows(run[k - 1], run[k - 1 + 1]);
      var a :| Enabled(run[k - 1], a) && run[k] == Next(run[k - 1], a);
      StepKeepsInv(run[k - 1], a);
    }
  }

  lemma PassHasShape(s: State, id: Id)
    requires Inv(s) && id in s.passes
    ensures PassShape(id, s.passes[id], s.clock)
  {
  }

  lemma InvShape(s: State)
    requires Inv(s)
    ensures Shape(s)
  {
  }
}
