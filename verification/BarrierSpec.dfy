/** The leader's outer-step barrier (src/dssd/diloco/barrier.py) between two await
    points. Averaging the pseudo-gradients and applying them is one function
    `outer` from the optimizer's state and what was submitted to its next state. */
module BarrierSpec {

  type Worker = string

  type Outer<!S, !G> = (S, map<Worker, G>) -> S

  /** `timer` says that the round's timeout is running. Each round has its own event;
      `event` numbers the present one, and the ones before it have been set. */
  datatype Barrier<S, G> = Barrier(round: nat, state: S, pending: map<Worker, G>, timer: bool, event: nat)

  function NewBarrier<S, G>(state: S, startRound: nat): Barrier<S, G> {
    Barrier(startRound, state, map[], false, 0)
  }

  function FinishRound<S, G>(b: Barrier<S, G>, outer: Outer<S, G>): Barrier<S, G> {
    Barrier(b.round + 1, outer(b.state, b.pending), map[], false, b.event + 1)
  }

  function Record<S, G>(b: Barrier<S, G>, worker: Worker, grad: G): Barrier<S, G> {
    b.(pending := b.pending[worker := grad])
  }

  /** Whether everybody believed alive has submitted. */
  predicate Complete<S, G>(b: Barrier<S, G>, alive: set<Worker>) {
    alive <= b.pending.Keys
  }

  /** `submit` up to its wait. */
  function Submit<S, G>(b: Barrier<S, G>, outer: Outer<S, G>, worker: Worker, grad: G, alive: set<Worker>): Barrier<S, G> {
    var b1 := Record(b, worker, grad);
    if Complete(b1, alive) then FinishRound(b1, outer) else b1.(timer := true)
  }

  function Timeout<S, G>(b: Barrier<S, G>, outer: Outer<S, G>): Barrier<S, G> {
    var b1 := b.(timer := false);
    if b1.pending.Keys != {} then FinishRound(b1, outer) else b1
  }
}
