/** The barrier with its callers, over whole runs: submissions, timeouts, callers that
    wake up late or go away (src/dssd/diloco/barrier.py). */
module BarrierRuns {
  import opened BarrierSpec

  /** A call of `submit` that waits: which event for, and in which round it came. */
  datatype Caller = Caller(worker: Worker, event: nat, since: nat)

  /** `averaged` is what an observer writes down: the submissions that each round averaged. */
  datatype Hall<S, G> = Hall(
    b: Barrier<S, G>,
    waiting: map<nat, Caller>,
    calls: nat,
    averaged: seq<map<Worker, G>>)

  datatype Step<G> =
    | Submits(worker: Worker, grad: G, alive: set<Worker>)
    | TimerFires
    | Wakes(call: nat)
    | Leaves(call: nat)

  predicate IsSet<S, G>(b: Barrier<S, G>, event: nat) {
    event < b.event
  }

  predicate Possible<S, G>(h: Hall<S, G>, step: Step<G>) {
    match step
    case Submits(_, _, _) => true
    case TimerFires => h.b.timer
    case Wakes(call) => call in h.waiting && IsSet(h.b, h.waiting[call].event)
    case Leaves(call) => call in h.waiting
  }

  /** The observer notes what was pending when a round closes. */
  function Observe<S, G>(h: Hall<S, G>, b': Barrier<S, G>, pending: map<Worker, G>): Hall<S, G> {
    h.(b := b', averaged := if b'.round > h.b.round then h.averaged + [pending] else h.averaged)
  }

  function After<S, G>(h: Hall<S, G>, outer: Outer<S, G>, step: Step<G>): Hall<S, G> {
    match step
    case Submits(worker, grad, alive) =>
      Observe(h, Submit(h.b, outer, worker, grad, alive), Record(h.b, worker, grad).pending)
        .(waiting := h.waiting[h.calls := Caller(worker, h.b.event, h.b.round)], calls := h.calls + 1)
    case TimerFires => Observe(h, Timeout(h.b, outer), h.b.pending)
    case Wakes(call) => h.(waiting := h.waiting - {call})
    case Leaves(call) => h.(waiting := h.waiting - {call})
  }

  ghost predicate Next<S, G(!new)>(h: Hall<S, G>, h': Hall<S, G>, outer: Outer<S, G>) {
    exists step :: Possible(h, step) && h' == After(h, outer, step)
  }

  ghost predicate NextAt<S, G(!new)>(run: seq<Hall<S, G>>, outer: Outer<S, G>, k: nat)
    requires k + 1 < |run|
  {
    Next(run[k], run[k + 1], outer)
  }

  ghost predicate Run<S, G(!new)>(run: seq<Hall<S, G>>, outer: Outer<S, G>, state: S, startRound: nat) {
    && |run| > 0
    && run[0] == Hall(NewBarrier(state, startRound), map[], 0, [])
    && forall k: nat {:trigger NextAt(run, outer, k)} | k + 1 < |run| :: NextAt(run, outer, k)
  }

  /** The optimizer's state after these rounds. */
  function Apply<S, G>(outer: Outer<S, G>, state: S, rounds: seq<map<Worker, G>>): S {
    if rounds == [] then state else outer(Apply(outer, state, rounds[..|rounds| - 1]), rounds[|rounds| - 1])
  }

  /** A caller that still waits has its submission pending; for one that may wake up
      its round has closed, with something of its worker in it. */
  ghost predicate CallerOk<S, G>(h: Hall<S, G>, c: Caller, startRound: nat) {
    && c.event <= h.b.event && c.since == startRound + c.event
    && if IsSet(h.b, c.event) then c.event < |h.averaged| && c.worker in h.averaged[c.event]
       else c.worker in h.b.pending
  }

  ghost predicate Invariant<S, G>(h: Hall<S, G>, outer: Outer<S, G>, state: S, startRound: nat) {
    && (h.b.timer <==> h.b.pending.Keys != {})
    && h.b.event == |h.averaged| && h.b.round == startRound + |h.averaged|
    && h.b.state == Apply(outer, state, h.averaged)
    && (forall i | 0 <= i < |h.averaged| :: h.averaged[i].Keys != {})
    && (forall call | call in h.waiting :: call < h.calls && CallerOk(h, h.waiting[call], startRound))
  }

  lemma ObserveKeeps<S, G>(h: Hall<S, G>, outer: Outer<S, G>, state: S, startRound: nat, pending: map<Worker, G>)
    requires Invariant(h, outer, state, startRound) && pending.Keys != {} && h.b.pending.Keys <= pending.Keys
    ensures Invariant(Observe(h, FinishRound(h.b.(pending := pending), outer), pending), outer, state, startRound)
  {
    var h' := Observe(h, FinishRound(h.b.(pending := pending), outer), pending);
    assert h'.averaged[..|h'.averaged| - 1] == h.averaged;
  }

  /** A submission that does not complete the round. */
  lemma PendingKeeps<S, G>(h: Hall<S, G>, outer: Outer<S, G>, state: S, startRound: nat, pending: map<Worker, G>)
    requires Invariant(h, outer, state, startRound) && pending.Keys != {} && h.b.pending.Keys <= pending.Keys
    ensures Invariant(h.(b := h.b.(pending := pending, timer := true)), outer, state, startRound)
  {}

  /** One more caller, once its submission was dealt with. */
  lemma JoinKeeps<S, G>(h: Hall<S, G>, outer: Outer<S, G>, state: S, startRound: nat, c: Caller)
    requires Invariant(h, outer, state, startRound) && CallerOk(h, c, startRound)
    ensures Invariant(h.(waiting := h.waiting[h.calls := c], calls := h.calls + 1), outer, state, startRound)
  {}

  lemma CompletingKeeps<S, G>(h: Hall<S, G>, outer: Outer<S, G>, state: S, startRound: nat, worker: Worker, pending: map<Worker, G>)
    requires Invariant(h, outer, state, startRound) && worker in pending.Keys && h.b.pending.Keys <= pending.Keys
    ensures var h1 := Observe(h, FinishRound(h.b.(pending := pending), outer), pending);
            Invariant(h1, outer, state, startRound) && CallerOk(h1, Caller(worker, h.b.event, h.b.round), startRound)
  {
    ObserveKeeps(h, outer, state, startRound, pending);
  }

  lemma SubmitKeeps<S, G>(h: Hall<S, G>, outer: Outer<S, G>, state: S, startRound: nat, worker: Worker, grad: G, alive: set<Worker>)
    requires Invariant(h, outer, state, startRound)
    ensures Invariant(After(h, outer, Submits(worker, grad, alive)), outer, state, startRound)
  {
    var b1, c := Record(h.b, worker, grad), Caller(worker, h.b.event, h.b.round);
    assert worker in b1.pending.Keys;
    if Complete(b1, alive) {
      CompletingKeeps(h, outer, state, startRound, worker, b1.pending);
      JoinKeeps(Observe(h, FinishRound(b1, outer), b1.pending), outer, state, startRound, c);
    } else {
      PendingKeeps(h, outer, state, startRound, b1.pending);
      JoinKeeps(h.(b := b1.(timer := true)), outer, state, startRound, c);
    }
  }

  lemma StepKeeps<S, G>(h: Hall<S, G>, outer: Outer<S, G>, state: S, startRound: nat, step: Step<G>)
    requires Invariant(h, outer, state, startRound) && Possible(h, step)
    ensures Invariant(After(h, outer, step), outer, state, startRound)
  {
    match step
    case Submits(worker, grad, alive) => SubmitKeeps(h, outer, state, startRound, worker, grad, alive);
    case TimerFires => ObserveKeeps(h, outer, state, startRound, h.b.pending);
    case _ =>
  }

  /** Always: the timer runs exactly while something is pending; every round averaged
      at least one submission; state and round number are those of that many rounds. */
  lemma {:induction false} AlwaysConsistent<S, G(!new)>(run: seq<Hall<S, G>>, outer: Outer<S, G>, state: S, startRound: nat, k: nat)
    requires Run(run, outer, state, startRound) && k < |run|
    ensures Invariant(run[k], outer, state, startRound)
  {
    if k > 0 {
      AlwaysConsistent(run, outer, state, startRound, k - 1);
      assert NextAt(run, outer, k - 1);
      var step :| Possible(run[k - 1], step) && run[k] == After(run[k - 1], outer, step);
      StepKeeps(run[k - 1], outer, state, startRound, step);
    }
  }

  /** Nobody is stranded: a caller can wake up, or the timer runs, and when it fires the caller can. */
  lemma NobodyIsStranded<S, G(!new)>(run: seq<Hall<S, G>>, outer: Outer<S, G>, state: S, startRound: nat, k: nat, call: nat)
    requires Run(run, outer, state, startRound) && k < |run| && call in run[k].waiting
    ensures Possible(run[k], Wakes(call)) ||
            (Possible(run[k], TimerFires) && Possible(After(run[k], outer, TimerFires), Wakes(call)))
  {
    AlwaysConsistent(run, outer, state, startRound, k);
    assert CallerOk(run[k], run[k].waiting[call], startRound);
  }

  /** What a caller gets when it wakes: a later round than the one it came in, the state
      after exactly that many rounds, one of which averaged a submission of its worker. */
  lemma AnswerIsARound<S, G(!new)>(run: seq<Hall<S, G>>, outer: Outer<S, G>, state: S, startRound: nat, k: nat, call: nat)
    returns (rounds: seq<map<Worker, G>>)
    requires Run(run, outer, state, startRound) && k < |run| && Possible(run[k], Wakes(call))
    ensures var c, b := run[k].waiting[call], run[k].b;
            && b.round > c.since >= startRound
            && rounds == run[k].averaged && |rounds| == b.round - startRound && b.state == Apply(outer, state, rounds)
            && c.worker in rounds[c.since - startRound]
    ensures forall i | 0 <= i < |rounds| :: rounds[i].Keys != {}
  {
    AlwaysConsistent(run, outer, state, startRound, k);
    assert CallerOk(run[k], run[k].waiting[call], startRound);
    rounds := run[k].averaged;
  }

  // ---------- which answers are the same ----------

  /** The steps that close a round: a submission that completes it, and the timeout with something pending. */
  predicate Closes<S, G>(h: Hall<S, G>, step: Step<G>) {
    match step
    case Submits(worker, grad, alive) => Complete(Record(h.b, worker, grad), alive)
    case TimerFires => h.b.pending.Keys != {}
    case _ => false
  }

  /** The move out of position `k` of the run closes a round. */
  ghost predicate ClosesAt<S, G(!new)>(run: seq<Hall<S, G>>, outer: Outer<S, G>, k: nat)
    requires k + 1 < |run|
  {
    exists step :: Possible(run[k], step) && run[k + 1] == After(run[k], outer, step) && Closes(run[k], step)
  }

  lemma ClosingCounts<S, G>(h: Hall<S, G>, outer: Outer<S, G>, step: Step<G>)
    requires Possible(h, step)
    ensures After(h, outer, step).b.round == h.b.round + if Closes(h, step) then 1 else 0
    ensures !Closes(h, step) ==> After(h, outer, step).b.state == h.b.state
  {}

  lemma MoveCounts<S, G(!new)>(run: seq<Hall<S, G>>, outer: Outer<S, G>, k: nat)
    requires k + 1 < |run| && NextAt(run, outer, k)
    ensures run[k + 1].b.round == run[k].b.round + if ClosesAt(run, outer, k) then 1 else 0
    ensures !ClosesAt(run, outer, k) ==> run[k + 1].b.state == run[k].b.state
  {
    var step :| Possible(run[k], step) && run[k + 1] == After(run[k], outer, step);
    ClosingCounts(run[k], outer, step);
    if ClosesAt(run, outer, k) {
      var closing :| Possible(run[k], closing) && run[k + 1] == After(run[k], outer, closing) && Closes(run[k], closing);
      ClosingCounts(run[k], outer, closing);
    }
  }

  /** How many moves from `j` to `k` close a round. */
  ghost function Closings<S, G(!new)>(run: seq<Hall<S, G>>, outer: Outer<S, G>, j: nat, k: nat): nat
    requires j <= k < |run|
  {
    if j == k then 0 else Closings(run, outer, j, k - 1) + if ClosesAt(run, outer, k - 1) then 1 else 0
  }

  lemma {:induction false} RoundsCount<S, G(!new)>(run: seq<Hall<S, G>>, outer: Outer<S, G>, state: S, startRound: nat, j: nat, k: nat)
    requires Run(run, outer, state, startRound) && j <= k < |run|
    ensures run[k].b.round == run[j].b.round + Closings(run, outer, j, k)
    ensures Closings(run, outer, j, k) == 0 ==> run[k].b.state == run[j].b.state
    ensures Closings(run, outer, j, k) == 0 <==> forall m: nat | j <= m < k :: !ClosesAt(run, outer, m)
    decreases k
  {
    if j < k {
      RoundsCount(run, outer, state, startRound, j, k - 1);
      assert NextAt(run, outer, k - 1);
      MoveCounts(run, outer, k - 1);
    }
  }

  /** The round and the state at two moments are those of one answer exactly if no step in
      between closes a round. */
  lemma SameRoundExactlyWhen<S, G(!new)>(run: seq<Hall<S, G>>, outer: Outer<S, G>, state: S, startRound: nat, j: nat, k: nat)
    requires Run(run, outer, state, startRound) && j <= k < |run|
    ensures run[j].b.round == run[k].b.round <==> forall m: nat | j <= m < k :: !ClosesAt(run, outer, m)
    ensures run[j].b.round == run[k].b.round ==> run[j].b.state == run[k].b.state
  {
    RoundsCount(run, outer, state, startRound, j, k);
  }

  /** What a caller that wakes now is told: the round and the state. */
  function Told<S, G>(h: Hall<S, G>, call: nat): (nat, S)
    requires Possible(h, Wakes(call))
  {
    (h.b.round, h.b.state)
  }

  /** So two callers, of one round or not, that wake at `j` and at `k` are told the same
      exactly if no step in between closes a round. */
  lemma SameAnswerExactlyWhen<S, G(!new)>(run: seq<Hall<S, G>>, outer: Outer<S, G>, state: S, startRound: nat,
                                          j: nat, a: nat, k: nat, b: nat)
    requires Run(run, outer, state, startRound) && j <= k < |run|
    requires Possible(run[j], Wakes(a)) && Possible(run[k], Wakes(b))
    ensures Told(run[j], a) == Told(run[k], b) <==> forall m: nat | j <= m < k :: !ClosesAt(run, outer, m)
  {
    SameRoundExactlyWhen(run, outer, state, startRound, j, k);
  }

  /** A caller that is still in its round at `j` and can wake at `k` is answered with its own
      round exactly if, of the steps in between, only one closed a round. */
  lemma OwnRoundExactlyWhen<S, G(!new)>(run: seq<Hall<S, G>>, outer: Outer<S, G>, state: S, startRound: nat, j: nat, k: nat, call: nat)
    requires Run(run, outer, state, startRound) && j <= k < |run|
    requires call in run[j].waiting && !Possible(run[j], Wakes(call)) && call in run[k].waiting
    requires run[k].waiting[call] == run[j].waiting[call] && Possible(run[k], Wakes(call))
    ensures run[k].b.round == run[k].waiting[call].since + 1 <==> Closings(run, outer, j, k) == 1
  {
    AlwaysConsistent(run, outer, state, startRound, j);
    assert CallerOk(run[j], run[j].waiting[call], startRound);
    RoundsCount(run, outer, state, startRound, j, k);
  }

  // ---------- two answers for one round ----------

  lemma Extend<S, G(!new)>(run: seq<Hall<S, G>>, outer: Outer<S, G>, state: S, startRound: nat, step: Step<G>)
    returns (run': seq<Hall<S, G>>)
    requires Run(run, outer, state, startRound) && Possible(run[|run| - 1], step)
    ensures run' == run + [After(run[|run| - 1], outer, step)] && Run(run', outer, state, startRound)
  {
    run' := run + [After(run[|run| - 1], outer, step)];
    forall k: nat | k + 1 < |run'| ensures NextAt(run', outer, k) {
      if k + 1 < |run| {
        assert NextAt(run, outer, k);
      }
    }
  }

  /** Workers a and b close a round together; b goes on and closes the next one alone
      before a wakes up. Then b was answered with round 1 and a is answered with round 2. */
  lemma AnswersCanDiffer<S, G(!new)>(outer: Outer<S, G>, state: S, grad: G) returns (run: seq<Hall<S, G>>, j: nat)
    ensures Run(run, outer, state, 0) && j < |run|
    ensures Possible(run[j], Wakes(1)) && run[j].waiting[1].since == 0 && run[j].b.round == 1
    ensures var last := run[|run| - 1]; Possible(last, Wakes(0)) && last.waiting[0].since == 0 && last.b.round == 2
  {
    run := [Hall(NewBarrier(state, 0), map[], 0, [])];
    run := Extend(run, outer, state, 0, Submits("a", grad, {"a", "b"}));
    run := Extend(run, outer, state, 0, Submits("b", grad, {"a", "b"}));
    j := 2;
    run := Extend(run, outer, state, 0, Wakes(1));
    run := Extend(run, outer, state, 0, Submits("b", grad, {"b"}));
  }
}
