/** Sequences of states in which each follows from the one before by a call. */
module Paths {

  ghost predicate StepAt<W(!new), C(!new)>(step: (W, C, W) -> bool, run: seq<W>, calls: seq<C>, i: nat)
    requires i < |calls| && |run| == |calls| + 1
  {
    step(run[i], calls[i], run[i + 1])
  }

  ghost predicate Path<W(!new), C(!new)>(step: (W, C, W) -> bool, run: seq<W>, calls: seq<C>) {
    && |run| == |calls| + 1
    && forall i: nat {:trigger StepAt(step, run, calls, i)} :: i < |calls| ==> StepAt(step, run, calls, i)
  }

  lemma PathStep<W(!new), C(!new)>(step: (W, C, W) -> bool, run: seq<W>, calls: seq<C>, i: nat)
    requires Path(step, run, calls) && 0 < i < |run|
    ensures step(run[i - 1], calls[i - 1], run[i])
  {
    assert StepAt(step, run, calls, i - 1);
  }

  lemma Extend<W(!new), C(!new)>(step: (W, C, W) -> bool, run: seq<W>, calls: seq<C>, call: C, w: W)
    requires Path(step, run, calls) && step(run[|calls|], call, w)
    ensures Path(step, run + [w], calls + [call])
  {
    forall i: nat | i < |calls| + 1 ensures StepAt(step, run + [w], calls + [call], i) {
      if i < |calls| { assert StepAt(step, run, calls, i); }
    }
  }
}
