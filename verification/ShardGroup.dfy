/** All replicas of one shard over their Raft group: every await point of
    `add_agent` and `tick` is a place where any other step may come in between. */
module ShardGroup {
  import opened World
  import opened RaftTypes
  import RS = RaftSpec
  import opened RaftCluster
  import opened ShardSpec

  /** `add_agent` answered True: for this agent, by this node, for this entry. */
  datatype Acceptance = Acceptance(node: NodeId, agent: Agent, index: nat, term: nat)

  /** What a snapshot does to the registry in front of it. */
  datatype Operation = MoveAll | PutOne(agent: Agent) | DropThese(ids: set<AgentId>)

  function Perform(grid: Grid, op: Operation, before: Agents): Agents {
    match op
    case MoveAll => StepAll(before, grid)
    case PutOne(agent) => Put(before, agent)
    case DropThese(ids) => Drop(before, ids)
  }

  /** A tick, an `add_agent` or a removal that began at `node`. */
  datatype Request = Request(node: NodeId, operation: Operation)

  /** The last four fields are what an observer writes down; no step reads them. `asked` lists
      all requests in order, `due` has the newest one of each replica's ticks (`true`) and of its
      other operations (`false`), unless it was carried out, and `origins` tells, by proposer,
      term and index, which request was carried out there. */
  datatype Group = Group(
    grid: Grid,
    raft: Cluster,
    locals: map<NodeId, Local>,
    accepted: set<Acceptance>,
    asked: seq<Request>,
    due: map<(NodeId, bool), nat>,
    origins: map<(NodeId, nat, nat), nat>)

  datatype GroupStep =
    | RaftStep(step: Step)
    | StartAdd(n: NodeId, agent: Agent)
    | TakeAddSnapshot(n: NodeId)
    | AbandonAdd(n: NodeId)
    | Accept(n: NodeId)
    | TakeBack(n: NodeId)
    | StartTick(n: NodeId)
    | TakeTickSnapshot(n: NodeId)
    | StartRemove(n: NodeId, ids: set<AgentId>)
    | TakeRemoveSnapshot(n: NodeId)
    | AbandonRemove(n: NodeId)
    | Cancel(n: NodeId)

  function Who(step: GroupStep): NodeId {
    match step
    case RaftStep(s) => Actor(s)
    case StartAdd(n, _) => n
    case TakeAddSnapshot(n) => n
    case AbandonAdd(n) => n
    case Accept(n) => n
    case TakeBack(n) => n
    case StartTick(n) => n
    case TakeTickSnapshot(n) => n
    case StartRemove(n, _) => n
    case TakeRemoveSnapshot(n) => n
    case AbandonRemove(n) => n
    case Cancel(n) => n
  }

  predicate Present(g: Group, n: NodeId) {
    n in g.raft.nodes && n in g.locals && |g.raft.nodes[n].log| > 0 && g.raft.nodes[n].commitIndex < |g.raft.nodes[n].log|
  }

  /** When the program can take the step. A wait that is not over may always run into its
      deadline, and whoever waits may be cancelled, as when a hand-off takes its caller too long. */
  predicate CanStep(g: Group, step: GroupStep) {
    Present(g, Who(step)) &&
    var s, l := g.raft.nodes[Who(step)], g.locals[Who(step)];
    match step
    case RaftStep(r) => !r.ProposeCommand? && Possible(g.raft, r) && Defined(g.raft, r)
    case StartAdd(_, _) => l.task.Free?
    case TakeAddSnapshot(_) => l.task.WaitToAdd? && PollApplied(s, l.task.index, l.task.term) == Ready
    case AbandonAdd(_) => l.task.WaitToAdd? && PollApplied(s, l.task.index, l.task.term) != Ready
    case Accept(_) => l.task.Adding? && PollApplied(s, l.task.index, l.task.term) == Ready
    case TakeBack(_) => l.task.Adding? && PollApplied(s, l.task.index, l.task.term) != Ready
    case StartTick(_) => !l.ticking && s.role == Leader
    case TakeTickSnapshot(_) => l.ticking && l.task.Free?
    case StartRemove(_, _) => l.task.Free?
    case TakeRemoveSnapshot(_) => l.task.WaitToRemove? && PollApplied(s, l.task.index, l.task.term) == Ready
    case AbandonRemove(_) => l.task.WaitToRemove? && PollApplied(s, l.task.index, l.task.term) != Ready
    case Cancel(_) => !l.task.Free?
  }

  function SetLocal(g: Group, n: NodeId, l: Local): Group {
    g.(locals := g.locals[n := l])
  }

  function RecordRequest(g: Group, n: NodeId, op: Operation): Group {
    g.(asked := g.asked + [Request(n, op)], due := g.due[(n, op.MoveAll?) := |g.asked|])
  }

  /** The replica proposes `agents`, which came of `op`, and goes on as `l`. */
  function ProposeAnd(g: Group, n: NodeId, op: Operation, agents: Agents, l: Local): Group
    requires Present(g, n)
  {
    SetLocal(g, n, l).(raft := AfterPropose(g.raft, n, Snapshot(agents)),
                       due := g.due - {(n, op.MoveAll?)}, origins := RecordOrigin(g, n, op))
  }

  /** Which requests were carried out, after the one due at `n` was. */
  function RecordOrigin(g: Group, n: NodeId, op: Operation): map<(NodeId, nat, nat), nat>
    requires Present(g, n)
  {
    var s := g.raft.nodes[n];
    if s.role == Leader && (n, op.MoveAll?) in g.due
    then g.origins[(n, s.currentTerm, |s.log|) := g.due[(n, op.MoveAll?)]]
    else g.origins
  }

  function AfterRaft(g: Group, step: Step): Group
    requires Defined(g.raft, step) && Actor(step) in g.locals
  {
    var g' := g.(raft := After(g.raft, step));
    if step.ApplyCommitted? then
      var n, s := step.n, g.raft.nodes[step.n];
      if s.lastApplied < s.commitIndex
      then SetLocal(g', n, g.locals[n].(agents := ApplyRange(g.locals[n].agents, s.log, s.lastApplied, s.commitIndex)))
      else g'
    else g'
  }

  function AfterGroup(g: Group, step: GroupStep): Group
    requires CanStep(g, step)
  {
    var n := Who(step);
    var s, l := g.raft.nodes[n], g.locals[n];
    match step
    case RaftStep(r) => AfterRaft(g, r)
    case StartAdd(_, agent) => RecordRequest(SetLocal(g, n, BeginAdd(s, l, agent)), n, PutOne(agent))
    case TakeAddSnapshot(_) => ProposeAnd(g, n, PutOne(l.task.agent), Put(l.agents, l.task.agent), AddSnapshot(s, l).1)
    case AbandonAdd(_) => SetLocal(g, n, l.(task := Free))
    case Accept(_) =>
      SetLocal(g, n, FinishAdd(l)).(accepted := g.accepted + {Acceptance(n, l.task.agent, l.task.index, l.task.term)})
    case TakeBack(_) => SetLocal(g, n, RollBack(l))
    case StartTick(_) => RecordRequest(SetLocal(g, n, l.(ticking := true)), n, MoveAll)
    case TakeTickSnapshot(_) =>
      var l' := TickSnapshot(s, l, g.grid).1;
      if CaughtUp(s) then ProposeAnd(g, n, MoveAll, l'.agents, l') else SetLocal(g, n, l')
    case StartRemove(_, ids) => RecordRequest(SetLocal(g, n, BeginRemove(s, l, ids)), n, DropThese(ids))
    case TakeRemoveSnapshot(_) => ProposeAnd(g, n, DropThese(l.task.ids), Drop(l.agents, l.task.ids), RemoveSnapshot(s, l).1)
    case AbandonRemove(_) => SetLocal(g, n, l.(task := Free))
    case Cancel(_) => SetLocal(g, n, l.(task := Free))
  }

  ghost predicate GroupNext(g: Group, g': Group) {
    exists step :: CanStep(g, step) && g' == AfterGroup(g, step)
  }

  ghost predicate InitialGroup(g: Group) {
    && Initial(g.raft)
    && g.locals.Keys == g.raft.nodes.Keys
    && (forall n | n in g.locals :: g.locals[n] == FRESH)
    && g.accepted == {} && g.asked == [] && g.due == map[] && g.origins == map[]
  }

  ghost predicate GroupRun(run: seq<Group>) {
    && |run| > 0
    && InitialGroup(run[0])
    && forall k {:trigger GroupStepAt(run, k)} | 0 < k < |run| :: GroupStepAt(run, k)
  }

  ghost predicate GroupStepAt(run: seq<Group>, k: int)
    requires 0 < k < |run|
  {
    GroupNext(run[k - 1], run[k])
  }

  /** The Raft side of a run of the replicas. */
  function RaftRun(run: seq<Group>): (r: seq<Cluster>)
    ensures |r| == |run|
  {
    seq(|run|, k requires 0 <= k < |run| => run[k].raft)
  }

  lemma StepIsRaftStep(g: Group, step: GroupStep)
    requires CanStep(g, step)
    ensures Next(g.raft, AfterGroup(g, step).raft)
  {
    var n, g' := Who(step), AfterGroup(g, step);
    match step
    case RaftStep(r) => assert g'.raft == After(g.raft, r);
    case TakeAddSnapshot(_) => ProposalIsNext(g.raft, n, Snapshot(Put(g.locals[n].agents, g.locals[n].task.agent)));
    case TakeTickSnapshot(_) => ProposalIsNext(g.raft, n, Snapshot(StepAll(g.locals[n].agents, g.grid)));
    case TakeRemoveSnapshot(_) => ProposalIsNext(g.raft, n, Snapshot(Drop(g.locals[n].agents, g.locals[n].task.ids)));
    case _ =>
  }

  lemma ProposalIsNext(c: Cluster, n: NodeId, command: Command)
    requires Defined(c, ProposeCommand(n, command))
    ensures Next(c, AfterPropose(c, n, command))
  {
    var step := ProposeCommand(n, command);
    assert Possible(c, step) && After(c, step) == AfterPropose(c, n, command);
  }

  lemma GroupNextIsNext(g: Group, g': Group)
    requires GroupNext(g, g')
    ensures Next(g.raft, g'.raft)
  {
    var step :| CanStep(g, step) && g' == AfterGroup(g, step);
    StepIsRaftStep(g, step);
  }

  /** So everything proved about Raft runs holds under the replicas. */
  lemma RaftRunIsRun(run: seq<Group>)
    requires GroupRun(run)
    ensures Run(RaftRun(run))
  {
    var r := RaftRun(run);
    forall k | 0 < k < |r|
      ensures StepAt(r, k)
    {
      assert GroupStepAt(run, k);
      GroupNextIsNext(run[k - 1], run[k]);
    }
  }
}
