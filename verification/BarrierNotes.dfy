/** Which submissions close a round and what it averages, told by who submitted since the
    round before: by the steps of a run and the rounds an observer noted, and nothing else. */
module BarrierNotes {
  import opened BarrierSpec
  import opened BarrierRuns

  /** A run together with the steps it took. */
  ghost predicate RunBy<S, G(!new)>(run: seq<Hall<S, G>>, steps: seq<Step<G>>, outer: Outer<S, G>, state: S, startRound: nat) {
    && |run| == |steps| + 1
    && run[0] == Hall(NewBarrier(state, startRound), map[], 0, [])
    && forall k {:trigger TakenAt(run, steps, outer, k)} | 0 <= k < |steps| :: TakenAt(run, steps, outer, k)
  }

  ghost predicate TakenAt<S, G(!new)>(run: seq<Hall<S, G>>, steps: seq<Step<G>>, outer: Outer<S, G>, k: int)
    requires 0 <= k < |steps| && |run| == |steps| + 1
  {
    Possible(run[k], steps[k]) && run[k + 1] == After(run[k], outer, steps[k])
  }

  /** Every run can be told like this. */
  lemma {:induction false} StepsOf<S, G(!new)>(run: seq<Hall<S, G>>, outer: Outer<S, G>, state: S, startRound: nat, k: nat)
    returns (steps: seq<Step<G>>)
    requires Run(run, outer, state, startRound) && k < |run|
    ensures RunBy(run[..k + 1], steps, outer, state, startRound)
  {
    if k == 0 {
      steps := [];
    } else {
      var front := StepsOf(run, outer, state, startRound, k - 1);
      assert NextAt(run, outer, k - 1);
      var step :| Possible(run[k - 1], step) && run[k] == After(run[k - 1], outer, step);
      steps := front + [step];
      var told := run[..k + 1];
      forall j | 0 <= j < |steps| ensures TakenAt(told, steps, outer, j) {
        assert j < k - 1 ==> TakenAt(run[..k], front, outer, j);
      }
    }
  }

  lemma RunByIsRun<S, G(!new)>(run: seq<Hall<S, G>>, steps: seq<Step<G>>, outer: Outer<S, G>, state: S, startRound: nat)
    requires RunBy(run, steps, outer, state, startRound)
    ensures Run(run, outer, state, startRound)
  {
    forall k: nat | k + 1 < |run| ensures NextAt(run, outer, k) {
      assert TakenAt(run, steps, outer, k);
    }
  }

  // ---------- what an observer sees ----------

  /** Step `k` closed a round. */
  predicate ClosedAt<S, G>(run: seq<Hall<S, G>>, k: int) {
    0 <= k && k + 1 < |run| && |run[k + 1].averaged| > |run[k].averaged|
  }

  predicate SubmitsAt<G>(steps: seq<Step<G>>, k: int, w: Worker) {
    0 <= k < |steps| && steps[k].Submits? && steps[k].worker == w
  }

  /** Before step `k`, the last submission of `w` that no round has averaged yet was step `i`. */
  ghost predicate Waits<S, G(!new)>(run: seq<Hall<S, G>>, steps: seq<Step<G>>, w: Worker, i: int, k: int) {
    && i < k && SubmitsAt(steps, i, w)
    && (forall m {:trigger ClosedAt(run, m)} | i <= m < k :: !ClosedAt(run, m))
    && (forall m {:trigger SubmitsAt(steps, m, w)} | i < m < k :: !SubmitsAt(steps, m, w))
  }

  /** The same with step `k` itself, if it is a submission. */
  ghost predicate Counts<S, G(!new)>(run: seq<Hall<S, G>>, steps: seq<Step<G>>, w: Worker, i: int, k: int) {
    if SubmitsAt(steps, k, w) then i == k else Waits(run, steps, w, i, k)
  }

  /** `w` has submitted since the last round closed. */
  ghost predicate IsIn<S, G(!new)>(run: seq<Hall<S, G>>, steps: seq<Step<G>>, w: Worker, k: int) {
    exists i :: Counts(run, steps, w, i, k)
  }

  /** These are the submissions since the last round closed, step `k` included, each worker's last. */
  ghost predicate AreTheLast<S, G(!new)>(run: seq<Hall<S, G>>, steps: seq<Step<G>>, k: int, grads: map<Worker, G>) {
    && (forall w :: w in grads <==> IsIn(run, steps, w, k))
    && (forall w, i | Counts(run, steps, w, i, k) :: 0 <= i < |steps| && steps[i].Submits? && w in grads && grads[w] == steps[i].grad)
  }

  /** Step `k` closed a round that averaged the last submissions since the round before, and no others. */
  ghost predicate AveragesAt<S, G(!new)>(run: seq<Hall<S, G>>, steps: seq<Step<G>>, k: int)
    requires 0 <= k && k + 1 < |run|
  {
    var before, after := run[k].averaged, run[k + 1].averaged;
    |after| == |before| + 1 && after[..|before|] == before && AreTheLast(run, steps, k, after[|before|])
  }

  // ---------- the pending submissions are these ----------

  ghost predicate PendingIs<S, G(!new)>(run: seq<Hall<S, G>>, steps: seq<Step<G>>, k: int)
    requires 0 <= k < |run|
  {
    && (forall w :: w in run[k].b.pending <==> exists i :: Waits(run, steps, w, i, k))
    && (forall w, i | Waits(run, steps, w, i, k) ::
          0 <= i < |steps| && steps[i].Submits? && w in run[k].b.pending && run[k].b.pending[w] == steps[i].grad)
  }

  /** How the table of submissions and the notes move in one step. */
  ghost predicate Moves<S, G>(h: Hall<S, G>, h': Hall<S, G>, step: Step<G>) {
    var all := if step.Submits? then h.b.pending[step.worker := step.grad] else h.b.pending;
    if |h'.averaged| > |h.averaged| then h'.b.pending == map[] && h'.averaged == h.averaged + [all]
    else h'.b.pending == all && h'.averaged == h.averaged
  }

  lemma StepMoves<S, G>(h: Hall<S, G>, outer: Outer<S, G>, step: Step<G>)
    requires Possible(h, step)
    ensures Moves(h, After(h, outer, step), step)
    ensures step.Submits? ==>
              (|After(h, outer, step).averaged| > |h.averaged| <==> forall w | w in step.alive :: w in h.b.pending || w == step.worker)
    ensures step.TimerFires? ==> (|After(h, outer, step).averaged| > |h.averaged| <==> h.b.pending.Keys != {})
    ensures step.Wakes? || step.Leaves? ==> |After(h, outer, step).averaged| == |h.averaged|
  {
    if step.Submits? {
      var keys := h.b.pending[step.worker := step.grad].Keys;
      assert forall w :: w in keys <==> w in h.b.pending || w == step.worker;
    }
  }

  lemma WaitsOn<S, G(!new)>(run: seq<Hall<S, G>>, steps: seq<Step<G>>, w: Worker, i: int, k: int)
    ensures Waits(run, steps, w, i, k + 1) <==> Counts(run, steps, w, i, k) && !ClosedAt(run, k)
  {
    if Waits(run, steps, w, i, k + 1) {
      assert i <= k && !ClosedAt(run, k);
      assert i < k ==> !SubmitsAt(steps, k, w);
    }
  }

  /** What is pending, with step `k`, are the last submissions. */
  lemma WithThisStep<S, G(!new)>(run: seq<Hall<S, G>>, steps: seq<Step<G>>, k: int, all: map<Worker, G>)
    requires 0 <= k < |steps| && |run| == |steps| + 1 && PendingIs(run, steps, k)
    requires all == if steps[k].Submits? then run[k].b.pending[steps[k].worker := steps[k].grad] else run[k].b.pending
    ensures AreTheLast(run, steps, k, all)
  {
    forall w ensures w in all <==> IsIn(run, steps, w, k) {
      if SubmitsAt(steps, k, w) {
        assert Counts(run, steps, w, k, k);
      } else if w in run[k].b.pending {
        var i :| Waits(run, steps, w, i, k);
        assert Counts(run, steps, w, i, k);
      }
    }
  }

  lemma PendingStays<S, G(!new)>(run: seq<Hall<S, G>>, steps: seq<Step<G>>, k: int, next: int)
    requires next == k + 1 && 0 <= k < |steps| && |run| == |steps| + 1 && PendingIs(run, steps, k) && Moves(run[k], run[k + 1], steps[k])
    ensures PendingIs(run, steps, next)
  {
    var all := if steps[k].Submits? then run[k].b.pending[steps[k].worker := steps[k].grad] else run[k].b.pending;
    WithThisStep(run, steps, k, all);
    forall w, i ensures Waits(run, steps, w, i, next) <==> Counts(run, steps, w, i, k) && !ClosedAt(run, k) {
      WaitsOn(run, steps, w, i, k);
    }
    forall w ensures w in run[next].b.pending <==> exists i :: Waits(run, steps, w, i, next) {
      if w in run[next].b.pending {
        assert IsIn(run, steps, w, k);
        var i :| Counts(run, steps, w, i, k);
        assert Waits(run, steps, w, i, next);
      }
      if i :| Waits(run, steps, w, i, next) {
        assert Counts(run, steps, w, i, k) && IsIn(run, steps, w, k);
      }
    }
  }

  lemma {:induction false} AlwaysPending<S, G(!new)>(run: seq<Hall<S, G>>, steps: seq<Step<G>>, outer: Outer<S, G>, state: S, startRound: nat, k: nat)
    requires RunBy(run, steps, outer, state, startRound) && k < |run|
    ensures PendingIs(run, steps, k)
  {
    if k > 0 {
      AlwaysPending(run, steps, outer, state, startRound, k - 1);
      assert TakenAt(run, steps, outer, k - 1);
      StepMoves(run[k - 1], outer, steps[k - 1]);
      PendingStays(run, steps, k - 1, k);
    }
  }

  // ---------- the rule ----------

  /** A submission closes a round exactly if all that are believed alive, the submitter included,
      have submitted since the last round closed; and the round averages the last submission of
      each who did, no other. */
  lemma ClosesExactlyWhen<S, G(!new)>(run: seq<Hall<S, G>>, steps: seq<Step<G>>, outer: Outer<S, G>, state: S, startRound: nat, k: nat)
    requires RunBy(run, steps, outer, state, startRound) && k < |steps| && steps[k].Submits?
    ensures ClosedAt(run, k) <==> forall w | w in steps[k].alive :: IsIn(run, steps, w, k)
    ensures if ClosedAt(run, k) then AveragesAt(run, steps, k) else run[k + 1].averaged == run[k].averaged
  {
    AlwaysPending(run, steps, outer, state, startRound, k);
    assert TakenAt(run, steps, outer, k);
    StepMoves(run[k], outer, steps[k]);
    var all := run[k].b.pending[steps[k].worker := steps[k].grad];
    WithThisStep(run, steps, k, all);
    assert forall w :: w in all <==> w in run[k].b.pending || w == steps[k].worker;
  }

  /** The timeout closes a round with what was submitted since the last one, which is something;
      and nothing but submissions and timeouts closes rounds. */
  lemma TimeoutCloses<S, G(!new)>(run: seq<Hall<S, G>>, steps: seq<Step<G>>, outer: Outer<S, G>, state: S, startRound: nat, k: nat)
    requires RunBy(run, steps, outer, state, startRound) && k < |steps| && !steps[k].Submits?
    ensures ClosedAt(run, k) <==> steps[k].TimerFires?
    ensures if ClosedAt(run, k) then AveragesAt(run, steps, k) && exists w :: IsIn(run, steps, w, k)
            else run[k + 1].averaged == run[k].averaged
  {
    AlwaysPending(run, steps, outer, state, startRound, k);
    RunByIsRun(run, steps, outer, state, startRound);
    AlwaysConsistent(run, outer, state, startRound, k);
    assert TakenAt(run, steps, outer, k);
    StepMoves(run[k], outer, steps[k]);
    WithThisStep(run, steps, k, run[k].b.pending);
    if w :| w in run[k].b.pending {
      assert IsIn(run, steps, w, k);
    }
  }
}
