/** Hand-offs between shards over whole runs (src/dssd/sharding/region_server.py,
    src/dssd/sharding/handoff.py). A shard is its committed registry. Many nodes tick
    at once; a request may be served late or twice, its answer may be lost, and the
    node that asked may lose the source before it removes anything. */
module Conservation {
  import opened World
  import opened RaftTypes
  import opened ShardSpec
  import opened TwoShards

  /** One call of `_handoff`: node `asker` asks `dest` to take `agent` off `src`. */
  datatype Transfer = Transfer(number: nat, asker: NodeId, src: ShardId, agent: Agent, dest: ShardId)

  /** `asked` are all calls ever made, `open` those still waited for, `accepted` those
      answered yes, `heard` those whose yes arrived and whose removal is still to come. */
  datatype Exchange = Exchange(
    shards: map<ShardId, Agents>,
    asked: set<Transfer>,
    open: set<Transfer>,
    accepted: set<Transfer>,
    heard: set<Transfer>,
    spawned: set<AgentId>)

  /** `Move` is phase 1 at one shard: its agents change, their names stay. `StoreUnsaid` is
      a hand-off that was refused, or whose wait ran out, and whose entry still commits. */
  datatype Step =
    | Spawn(s: ShardId, agent: Agent)
    | Move(s: ShardId, moved: Agents)
    | Ask(t: Transfer)
    | Accept(t: Transfer)
    | StoreUnsaid(t: Transfer)
    | Hear(t: Transfer)
    | Lose(t: Transfer)
    | Remove(asker: NodeId, s: ShardId)
    | GiveUp(asker: NodeId, s: ShardId)

  predicate Possible(x: Exchange, step: Step) {
    match step
    case Spawn(s, _) => s in x.shards
    case Move(s, moved) => s in x.shards && moved.Keys == x.shards[s].Keys
    case Ask(t) => t.src in x.shards && t.dest in x.shards && t.src != t.dest && t !in x.asked
    case Accept(t) => t in x.asked && t.dest in x.shards
    case StoreUnsaid(t) => t in x.asked && t.dest in x.shards
    case Hear(t) => t in x.open && t in x.accepted
    case Lose(t) => t in x.open
    case Remove(_, s) => s in x.shards
    case GiveUp(_, _) => true
  }

  function Add(x: Exchange, s: ShardId, agent: Agent): Exchange
    requires s in x.shards
  {
    x.(shards := x.shards[s := Put(x.shards[s], agent)])
  }

  /** What a tick of node `asker` is about to remove from shard `s`. */
  function Due(x: Exchange, asker: NodeId, s: ShardId): set<Transfer> {
    set t | t in x.heard && t.asker == asker && t.src == s
  }

  function Names(ts: set<Transfer>): set<AgentId> {
    set t | t in ts :: t.agent.id
  }

  function After(x: Exchange, step: Step): Exchange
    requires Possible(x, step)
  {
    match step
    case Spawn(s, agent) => Add(x, s, agent).(spawned := x.spawned + {agent.id})
    case Move(s, moved) => x.(shards := x.shards[s := moved])
    case Ask(t) => x.(asked := x.asked + {t}, open := x.open + {t})
    case Accept(t) => Add(x, t.dest, t.agent).(accepted := x.accepted + {t})
    case StoreUnsaid(t) => Add(x, t.dest, t.agent)
    case Hear(t) => x.(open := x.open - {t}, heard := x.heard + {t})
    case Lose(t) => x.(open := x.open - {t})
    case Remove(asker, s) =>
      var due := Due(x, asker, s);
      x.(shards := x.shards[s := Drop(x.shards[s], Names(due))], heard := x.heard - due)
    case GiveUp(asker, s) => x.(heard := x.heard - Due(x, asker, s))
  }

  /** A yes for handing `id` off `s` was given, and may yet be acted upon. */
  ghost predicate Pending(x: Exchange, s: ShardId, id: AgentId) {
    exists t :: PendingBy(x, t, s, id)
  }

  predicate PendingBy(x: Exchange, t: Transfer, s: ShardId, id: AgentId) {
    t.src == s && t.agent.id == id && (t in x.heard || (t in x.open && t in x.accepted))
  }

  /** The hypothesis: no shard says yes to a name whose removal it has pending. */
  ghost predicate Disciplined(x: Exchange, step: Step) {
    match step
    case Spawn(s, agent) => !Pending(x, s, agent.id)
    case Accept(t) => !Pending(x, t.dest, t.agent.id)
    case _ => true
  }

  ghost predicate Next(x: Exchange, x': Exchange) {
    exists step :: Possible(x, step) && Disciplined(x, step) && x' == After(x, step)
  }

  ghost predicate Initial(x: Exchange) {
    x.asked == {} && x.open == {} && x.accepted == {} && x.heard == {} && x.spawned == {}
  }

  ghost predicate NextAt(run: seq<Exchange>, k: nat)
    requires k + 1 < |run|
  {
    Next(run[k], run[k + 1])
  }

  ghost predicate Run(run: seq<Exchange>) {
    |run| > 0 && Initial(run[0]) && forall k: nat {:trigger NextAt(run, k)} | k + 1 < |run| :: NextAt(run, k)
  }

  predicate Lists(x: Exchange, s: ShardId, id: AgentId) {
    s in x.shards && id in x.shards[s]
  }

  ghost predicate SafeIn(x: Exchange, s: ShardId, id: AgentId) {
    Lists(x, s, id) && !Pending(x, s, id)
  }

  /** Some shard has the agent and is not about to remove it. */
  ghost predicate Safe(x: Exchange, id: AgentId) {
    exists s :: SafeIn(x, s, id)
  }

  ghost predicate Invariant(x: Exchange) {
    && (forall t | t in x.asked :: t.src != t.dest)
    && x.open <= x.asked && x.accepted <= x.asked && x.heard <= x.asked
    && forall id | id in x.spawned :: Safe(x, id)
  }

  // ---------- conservation ----------

  /** Only a yes makes a removal pending, and only at the shard that asked. */
  lemma PendingGrows(x: Exchange, step: Step, s: ShardId, id: AgentId)
    requires Possible(x, step) && x.accepted <= x.asked
    ensures Pending(After(x, step), s, id) ==>
            Pending(x, s, id) || (step.Accept? && step.t.src == s && step.t.agent.id == id)
  {
    var x' := After(x, step);
    if Pending(x', s, id) {
      var t :| PendingBy(x', t, s, id);
      assert PendingBy(x, t, s, id) || (step.Accept? && step.t == t);
    }
  }

  /** What a step takes from a shard was pending there. */
  lemma OnlyPendingIsRemoved(x: Exchange, step: Step, s: ShardId, id: AgentId)
    requires Possible(x, step) && Lists(x, s, id) && !Pending(x, s, id)
    ensures Lists(After(x, step), s, id)
  {
    if step.Remove? && step.s == s && id in Names(Due(x, step.asker, s)) {
      var t :| t in Due(x, step.asker, s) && t.agent.id == id;
      assert PendingBy(x, t, s, id);
    }
  }

  lemma StepIsSafe(x: Exchange, step: Step, id: AgentId)
    requires Invariant(x) && Possible(x, step) && Disciplined(x, step) && id in After(x, step).spawned
    ensures Safe(After(x, step), id)
  {
    var x' := After(x, step);
    var s: ShardId;
    if step.Spawn? && step.agent.id == id {
      s := step.s;
    } else if step.Accept? && step.t.agent.id == id {
      s := step.t.dest;
    } else {
      s :| SafeIn(x, s, id);
      OnlyPendingIsRemoved(x, step, s, id);
    }
    PendingGrows(x, step, s, id);
    assert SafeIn(x', s, id);
  }

  lemma StepKeeps(x: Exchange, step: Step)
    requires Invariant(x) && Possible(x, step) && Disciplined(x, step)
    ensures Invariant(After(x, step))
  {
    forall id | id in After(x, step).spawned ensures Safe(After(x, step), id) {
      StepIsSafe(x, step, id);
    }
  }

  lemma {:induction false} RunInvariant(run: seq<Exchange>, k: nat)
    requires Run(run) && k < |run|
    ensures Invariant(run[k])
  {
    if k > 0 {
      RunInvariant(run, k - 1);
      assert NextAt(run, k - 1);
      var step :| Possible(run[k - 1], step) && Disciplined(run[k - 1], step) && run[k] == After(run[k - 1], step);
      StepKeeps(run[k - 1], step);
    }
  }

  /** Hand-off conservation: in every run that keeps the hypothesis, every agent ever
      spawned is at all times in some shard that is not about to remove it. */
  lemma NoAgentIsLost(run: seq<Exchange>, k: nat, id: AgentId) returns (s: ShardId)
    requires Run(run) && k < |run| && id in run[k].spawned
    ensures Lists(run[k], s, id) && !Pending(run[k], s, id)
  {
    RunInvariant(run, k);
    s :| SafeIn(run[k], s, id);
  }

  // ---------- the hypothesis is needed ----------

  /** Steps that only carry out what was already agreed to. */
  ghost predicate Finishing(x: Exchange, x': Exchange) {
    exists step :: Possible(x, step) && (step.Hear? || step.Remove?) && x' == After(x, step)
  }

  ghost predicate FinishAt(run: seq<Exchange>, k: nat)
    requires k + 1 < |run|
  {
    Finishing(run[k], run[k + 1])
  }

  ghost predicate FinishRun(run: seq<Exchange>) {
    |run| > 0 && forall k: nat {:trigger FinishAt(run, k)} | k + 1 < |run| :: FinishAt(run, k)
  }

  function Holders(x: Exchange, id: AgentId): set<ShardId> {
    set s | s in x.shards && id in x.shards[s]
  }

  lemma Prepend(x: Exchange, step: Step, rest: seq<Exchange>) returns (run: seq<Exchange>)
    requires Possible(x, step) && (step.Hear? || step.Remove?)
    requires FinishRun(rest) && rest[0] == After(x, step)
    ensures FinishRun(run) && run[0] == x && run[|run| - 1] == rest[|rest| - 1]
  {
    run := [x] + rest;
    forall k: nat | k + 1 < |run| ensures FinishAt(run, k) {
      if k > 0 {
        assert FinishAt(rest, k - 1);
      }
    }
  }

  /** Carrying out one pending removal takes the name from its shard and leaves the others alone. */
  lemma RemoveOne(x: Exchange, t: Transfer, id: AgentId)
    requires t.src in x.shards && t in x.heard && t.agent.id == id
    ensures var x' := After(x, Remove(t.asker, t.src));
            && Holders(x', id) == Holders(x, id) - {t.src}
            && forall s | s != t.src && Pending(x, s, id) :: Pending(x', s, id)
  {
    var x' := After(x, Remove(t.asker, t.src));
    assert t in Due(x, t.asker, t.src);
    forall s | s != t.src && Pending(x, s, id) ensures Pending(x', s, id) {
      var u :| PendingBy(x, u, s, id);
      assert PendingBy(x', u, s, id);
    }
  }

  lemma HearOne(x: Exchange, t: Transfer, id: AgentId)
    requires t in x.open && t in x.accepted
    ensures var x' := After(x, Hear(t));
            && Holders(x', id) == Holders(x, id)
            && forall s | Pending(x, s, id) :: Pending(x', s, id)
  {
    var x' := After(x, Hear(t));
    forall s | Pending(x, s, id) ensures Pending(x', s, id) {
      var u :| PendingBy(x, u, s, id);
      assert PendingBy(x', u, s, id);
    }
  }

  /** The invariant cannot be weakened: once every shard that has an agent has a
      removal of it pending, carrying out these removals loses the agent. */
  lemma {:induction false} UnsafeCanBeLost(x: Exchange, id: AgentId) returns (run: seq<Exchange>)
    requires !Safe(x, id)
    ensures FinishRun(run) && run[0] == x && Holders(run[|run| - 1], id) == {}
    ensures run[|run| - 1].spawned == x.spawned
    decreases |Holders(x, id)|, 1
  {
    if Holders(x, id) == {} {
      run := [x];
    } else {
      var s :| s in Holders(x, id);
      assert !SafeIn(x, s, id);
      var t :| PendingBy(x, t, s, id);
      if t in x.heard {
        run := LoseFrom(x, t, id);
      } else {
        HearOne(x, t, id);
        var x1 := After(x, Hear(t));
        assert forall u :: SafeIn(x1, u, id) ==> SafeIn(x, u, id);
        var rest := LoseFrom(x1, t, id);
        run := Prepend(x, Hear(t), rest);
      }
    }
  }

  lemma {:induction false} LoseFrom(x: Exchange, t: Transfer, id: AgentId) returns (run: seq<Exchange>)
    requires !Safe(x, id) && t in x.heard && t.agent.id == id && Lists(x, t.src, id)
    ensures FinishRun(run) && run[0] == x && Holders(run[|run| - 1], id) == {}
    ensures run[|run| - 1].spawned == x.spawned
    decreases |Holders(x, id)|, 0
  {
    RemoveOne(x, t, id);
    var x1 := After(x, Remove(t.asker, t.src));
    assert t.src in Holders(x, id);
    forall u ensures !SafeIn(x1, u, id) {
      if Lists(x1, u, id) {
        assert u in Holders(x1, id);
        assert !SafeIn(x, u, id);
      }
    }
    var rest := UnsafeCanBeLost(x1, id);
    run := Prepend(x, Remove(t.asker, t.src), rest);
  }

  // ---------- such a run exists ----------

  /** What the code moves and asks: agents move by the grid, spawned and handed-off agents
      go to the shard of their region, and a hand-off is of an agent the source lists as it is. */
  predicate AsCoded(x: Exchange, step: Step, grid: Grid)
    requires ValidGrid(grid)
  {
    match step
    case Spawn(s, agent) => ShardOf(agent, grid) == s
    case Move(s, moved) => s in x.shards && moved == StepAll(x.shards[s], grid)
    case Ask(t) => Lists(x, t.src, t.agent.id) && x.shards[t.src][t.agent.id] == t.agent && ShardOf(t.agent, grid) == t.dest
    case _ => true
  }

  /** Any step of the program, whether it keeps the hypothesis or not. */
  ghost predicate AnyNext(x: Exchange, x': Exchange) {
    exists step :: Possible(x, step) && AsCoded(x, step, TWO) && x' == After(x, step)
  }

  ghost predicate AnyNextAt(run: seq<Exchange>, k: nat)
    requires k + 1 < |run|
  {
    AnyNext(run[k], run[k + 1])
  }

  ghost predicate AnyRun(run: seq<Exchange>) {
    |run| > 0 && Initial(run[0]) && forall k: nat {:trigger AnyNextAt(run, k)} | k + 1 < |run| :: AnyNextAt(run, k)
  }

  lemma Join(front: seq<Exchange>, rest: seq<Exchange>) returns (run: seq<Exchange>)
    requires AnyRun(front) && FinishRun(rest) && rest[0] == front[|front| - 1]
    ensures AnyRun(run) && run[|run| - 1] == rest[|rest| - 1]
  {
    run := front + rest[1..];
    forall k: nat | k + 1 < |run| ensures AnyNextAt(run, k) {
      if k + 1 < |front| {
        assert AnyNextAt(front, k);
      } else {
        var j := k + 1 - |front|;
        assert run[k] == rest[j] && run[k + 1] == rest[j + 1] && FinishAt(rest, j);
      }
    }
  }

  lemma Extend(front: seq<Exchange>, step: Step) returns (run: seq<Exchange>)
    requires AnyRun(front) && Possible(front[|front| - 1], step) && AsCoded(front[|front| - 1], step, TWO)
    ensures AnyRun(run) && run[|run| - 1] == After(front[|front| - 1], step)
  {
    run := front + [After(front[|front| - 1], step)];
    forall k: nat | k + 1 < |run| ensures AnyNextAt(run, k) {
      if k + 1 < |front| {
        assert AnyNextAt(front, k);
      }
    }
  }

  /** The agent crosses to the east, bounces off the far wall, and crosses back. */
  const X0: Agent := Agent("x", 0.5, 0.5, 1.0, 0.0)
  const X1: Agent := Agent("x", 1.5, 0.5, 1.0, 0.0)
  const X2: Agent := Agent("x", 1.5, 0.5, -1.0, 0.0)
  const X3: Agent := Agent("x", 0.5, 0.5, -1.0, 0.0)
  const OUT: Transfer := Transfer(0, "a", WEST, X1, EAST)
  const BACK: Transfer := Transfer(1, "b", EAST, X3, WEST)

  lemma TheWay()
    ensures StepAgent(X0, DT, TWO) == X1 && StepAgent(X1, DT, TWO) == X2 && StepAgent(X2, DT, TWO) == X3
    ensures ShardOf(X0, TWO) == WEST && ShardOf(X1, TWO) == EAST && ShardOf(X3, TWO) == WEST
  {
    Places2(X0.x, X0.y);
    Places2(X1.x, X1.y);
    Places2(X3.x, X3.y);
  }

  function One(a: Agent): Agents {
    map[a.id := a]
  }

  lemma OneMoves(a: Agent, a': Agent)
    requires StepAgent(a, DT, TWO) == a' && a'.id == a.id
    ensures StepAll(One(a), TWO) == One(a') && One(a').Keys == One(a).Keys
  {}

  lemma GoesEast() returns (run: seq<Exchange>)
    ensures AnyRun(run)
    ensures run[|run| - 1] == Exchange(map[WEST := One(X1), EAST := One(X1)], {OUT}, {OUT}, {OUT}, {}, {X0.id})
  {
    TheWay();
    OneMoves(X0, X1);
    run := [Exchange(map[WEST := map[], EAST := map[]], {}, {}, {}, {}, {})];
    run := Extend(run, Spawn(WEST, X0));
    assert run[|run| - 1].shards == map[WEST := One(X0), EAST := map[]];
    run := Extend(run, Move(WEST, One(X1)));
    assert run[|run| - 1].shards == map[WEST := One(X1), EAST := map[]];
    run := Extend(run, Ask(OUT));
    run := Extend(run, Accept(OUT));
    assert run[|run| - 1].shards == map[WEST := One(X1), EAST := One(X1)];
  }

  lemma ComesBack() returns (run: seq<Exchange>)
    ensures AnyRun(run)
    ensures run[|run| - 1] ==
            Exchange(map[WEST := One(X3), EAST := One(X3)], {OUT, BACK}, {OUT, BACK}, {OUT, BACK}, {}, {X0.id})
  {
    TheWay();
    OneMoves(X1, X2);
    OneMoves(X2, X3);
    run := GoesEast();
    run := Extend(run, Move(EAST, One(X2)));
    assert run[|run| - 1].shards == map[WEST := One(X1), EAST := One(X2)];
    run := Extend(run, Move(EAST, One(X3)));
    assert run[|run| - 1].shards == map[WEST := One(X1), EAST := One(X3)];
    run := Extend(run, Ask(BACK));
    run := Extend(run, Accept(BACK));
    assert Put(One(X1), X3) == One(X3);
    assert run[|run| - 1].shards == map[WEST := One(X3), EAST := One(X3)];
  }

  /** The agent turns round before its old shard has heard that the new one took it:
      both shards say yes, both hear yes, both remove it. */
  lemma AgentCanBeLost() returns (run: seq<Exchange>)
    ensures AnyRun(run)
    ensures X0.id in run[|run| - 1].spawned && Holders(run[|run| - 1], X0.id) == {}
  {
    run := ComesBack();
    var x := run[|run| - 1];
    forall s ensures !SafeIn(x, s, X0.id) {
      assert PendingBy(x, OUT, WEST, X0.id) && PendingBy(x, BACK, EAST, X0.id);
    }
    var rest := UnsafeCanBeLost(x, X0.id);
    run := Join(run, rest);
  }
}
