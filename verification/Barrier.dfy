/** The barrier as the program has it (src/dssd/diloco/barrier.py): fields updated in
    place, `submit` cut at its wait, each piece proved to be the step of `BarrierSpec`. */
module Barrier {
  import opened Spec = BarrierSpec

  class RoundBarrier<S, G> {
    const outer: Outer<S, G>
    var round: nat
    var globalState: S
    var pending: map<Worker, G>
    var timeoutTask: bool
    var roundDone: nat

    function State(): Barrier<S, G>
      reads this
    {
      Barrier(round, globalState, pending, timeoutTask, roundDone)
    }

    constructor (outer: Outer<S, G>, globalState: S, startRound: nat)
      ensures State() == NewBarrier(globalState, startRound) && this.outer == outer
    {
      this.outer, this.globalState, round := outer, globalState, startRound;
      pending, timeoutTask, roundDone := map[], false, 0;
    }

    method FinishRound()
      modifies this
      ensures State() == Spec.FinishRound(old(State()), outer)
    {
      globalState := outer(globalState, pending);
      round := round + 1;
      pending := map[];
      if timeoutTask {
        timeoutTask := false;
      }
      roundDone := roundDone + 1;
    }

    /** The caller waits for `done`: the event of the round it joined, even if it closes that round itself. */
    method Submit(worker: Worker, grad: G, alive: set<Worker>) returns (done: nat)
      modifies this
      ensures State() == Spec.Submit(old(State()), outer, worker, grad, alive) && done == old(roundDone)
    {
      pending := pending[worker := grad];
      done := roundDone;
      if alive <= pending.Keys {
        FinishRound();
      } else if !timeoutTask {
        timeoutTask := true;
      }
    }

    method FinishAfterTimeout()
      modifies this
      ensures State() == Spec.Timeout(old(State()), outer)
    {
      timeoutTask := false;
      if pending.Keys != {} {
        FinishRound();
      }
    }

    /** `submit` after its wait. */
    method Answer() returns (newRound: nat, newState: S)
      ensures newRound == State().round && newState == State().state
    {
      return round, globalState;
    }
  }
}
