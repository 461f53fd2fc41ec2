/** Stretches of a run of a shard's replicas, put together step by step: an election, a
    round of replication, a delivery, an `add_agent`, a tick. `ShardErasure` and
    `ShardLossRun` build on them. */
module ShardLoss {
  import opened World
  import opened RaftTypes
  import opened RaftSpec
  import opened RaftCluster
  import opened ShardSpec
  import opened ShardGroup

  // ---------- building a run ----------

  const A: NodeId := "a"
  const B: NodeId := "b"
  const GRID: Grid := Grid(10.0, 10.0, 1, 1)
  const X: Agent := Agent("x", 1.0, 1.0, 0.0, 0.0)
  const Y: Agent := Agent("y", 2.0, 2.0, 0.0, 0.0)

  ghost predicate Fit(n: NodeId, s: NodeState) {
    s.id == n && s.commitIndex < |s.log|
  }

  ghost predicate Healthy(g: Group) {
    forall n | n in g.raft.nodes :: Fit(n, g.raft.nodes[n])
  }

  /** The run ends with these nodes, replicas and answers, and nobody ever asked to remove an agent. */
  ghost predicate At(run: seq<Group>, nodes: map<NodeId, NodeState>, locals: map<NodeId, Local>, accepted: set<Acceptance>) {
    && GroupRun(run)
    && var g := run[|run| - 1];
    && g.raft.nodes == nodes && g.locals == locals && g.accepted == accepted && g.grid == GRID
    && locals.Keys == nodes.Keys
    && Healthy(g)
    && (forall k, n | 0 <= k < |run| && n in run[k].locals :: !run[k].locals[n].task.WaitToRemove?)
  }

  /** The step leads from `g` to a group with these nodes, replicas and answers. */
  ghost predicate Leads(g: Group, step: GroupStep, g': Group) {
    CanStep(g, step) && g' == AfterGroup(g, step)
  }

  lemma Calm(g: Group, step: GroupStep)
    requires CanStep(g, step) && !step.StartRemove?
    requires forall n | n in g.locals :: !g.locals[n].task.WaitToRemove?
    ensures var g' := AfterGroup(g, step);
            && g'.grid == g.grid && g'.locals.Keys == g.locals.Keys
            && forall n | n in g'.locals :: !g'.locals[n].task.WaitToRemove?
  {}

  lemma Extend(run: seq<Group>, nodes: map<NodeId, NodeState>, locals: map<NodeId, Local>, accepted: set<Acceptance>,
               step: GroupStep, g': Group) returns (run': seq<Group>)
    requires At(run, nodes, locals, accepted) && Leads(run[|run| - 1], step, g') && !step.StartRemove?
    requires g'.raft.nodes.Keys == nodes.Keys
    requires Healthy(g')
    ensures run' == run + [g'] && At(run', g'.raft.nodes, g'.locals, g'.accepted)
  {
    Calm(run[|run| - 1], step);
    run' := Append(run, step, g');
  }

  lemma Append(run: seq<Group>, step: GroupStep, g': Group) returns (run': seq<Group>)
    requires GroupRun(run) && Leads(run[|run| - 1], step, g')
    ensures run' == run + [g'] && GroupRun(run')
  {
    run' := run + [g'];
    forall k | 0 < k < |run'|
      ensures GroupStepAt(run', k)
    {
      if k < |run| {
        assert GroupStepAt(run, k);
      } else {
        assert CanStep(run'[k - 1], step);
      }
    }
  }

  // ---------- Raft steps of two nodes ----------

  /** The calls that are open for `n`. */
  ghost predicate Asks(g: Group, call: VoteCall) {
    call in g.raft.voteCalls && call in g.raft.openVotes
  }

  lemma DoTimeout(g: Group, n: NodeId, p: NodeId, cand: NodeState) returns (g': Group)
    requires n in g.raft.nodes && cand == StartElection(g.raft.nodes[n]) && |cand.log| > 0
    requires Present(g, n) && g.raft.nodes[n].id == n
    requires g.raft.nodes[n].running && g.raft.nodes[n].role != Leader && g.raft.nodes[n].peers == [p]
    ensures Leads(g, RaftStep(ElectionTimeout(n)), g')
    ensures g'.raft.nodes == g.raft.nodes[n := cand] && g'.locals == g.locals && g'.accepted == g.accepted
    ensures Asks(g', VoteCall(n, p, VoteRequest(cand)))
  {
    var step := RaftStep(ElectionTimeout(n));
    g' := AfterGroup(g, step);
    assert g'.raft == AfterElectionTimeout(g.raft, n);
    assert p in g.raft.nodes[n].peers;
  }

  lemma DoServeVote(g: Group, call: VoteCall, voter: NodeState, reply: RequestVoteReply) returns (g': Group)
    requires Present(g, call.dst) && Asks(g, call)
    requires (voter, reply) == HandleRequestVote(g.raft.nodes[call.dst], call.args)
    ensures Leads(g, RaftStep(ServeVote(call)), g')
    ensures g'.raft.nodes == g.raft.nodes[call.dst := voter] && g'.locals == g.locals && g'.accepted == g.accepted
    ensures Asks(g', call) && (call, reply) in g'.raft.voteReplies
  {
    var step := RaftStep(ServeVote(call));
    g' := AfterGroup(g, step);
    assert g'.raft == AfterServeVote(g.raft, call);
  }

  lemma DoVoteReply(g: Group, call: VoteCall, reply: RequestVoteReply, winner: NodeState) returns (g': Group)
    requires Present(g, call.src) && Asks(g, call) && (call, reply) in g.raft.voteReplies
    requires winner == ReceiveVoteReply(g.raft.nodes[call.src], call.args.term, reply)
    ensures Leads(g, RaftStep(GetVoteReply(call, reply)), g')
    ensures g'.raft.nodes == g.raft.nodes[call.src := winner]
    ensures g'.locals == g.locals && g'.accepted == g.accepted
  {
    var step := RaftStep(GetVoteReply(call, reply));
    g' := AfterGroup(g, step);
    assert g'.raft == AfterVoteReply(g.raft, call, reply);
  }

  ghost predicate Sends(g: Group, call: AppendCall) {
    call in g.raft.appendCalls && call in g.raft.openAppends
  }

  lemma DoSend(g: Group, n: NodeId, p: NodeId) returns (g': Group, call: AppendCall)
    requires Present(g, n) && g.raft.nodes[n].running && g.raft.nodes[n].role == Leader && p in g.raft.nodes[n].peers
    requires CanReplicate(g.raft.nodes[n], p)
    ensures Leads(g, RaftStep(SendAppend(n, p)), g')
    ensures call.src == n && call.dst == p && call.args == AppendRequest(g.raft.nodes[n], p) && Sends(g', call)
    ensures g'.raft.nodes == g.raft.nodes && g'.locals == g.locals && g'.accepted == g.accepted
  {
    var step := RaftStep(SendAppend(n, p));
    g' := AfterGroup(g, step);
    call := AppendCall(g.raft.sends, n, p, AppendRequest(g.raft.nodes[n], p));
    assert g'.raft == AfterSendAppend(g.raft, n, p);
  }

  lemma DoServeAppend(g: Group, call: AppendCall) returns (g': Group)
    requires Present(g, call.dst) && Sends(g, call)
    ensures Leads(g, RaftStep(ServeAppend(call)), g')
    ensures var (taker, reply) := HandleAppendEntries(g.raft.nodes[call.dst], call.args);
            && g'.raft.nodes == g.raft.nodes[call.dst := taker] && g'.locals == g.locals && g'.accepted == g.accepted
            && Sends(g', call) && (call, reply) in g'.raft.appendReplies
  {
    var step := RaftStep(ServeAppend(call));
    g' := AfterGroup(g, step);
    assert g'.raft == AfterServeAppend(g.raft, call);
  }

  lemma DoAppendReply(g: Group, call: AppendCall, reply: AppendEntriesReply) returns (g': Group)
    requires Present(g, call.src) && Sends(g, call) && (call, reply) in g.raft.appendReplies
    requires g.raft.nodes[call.src].role == Leader ==> CanReplicate(g.raft.nodes[call.src], call.dst)
    ensures Leads(g, RaftStep(GetAppendReply(call, reply)), g')
    ensures g'.raft.nodes == g.raft.nodes[call.src := ReceiveAppendReply(g.raft.nodes[call.src], call.dst, call.args, reply)]
    ensures g'.locals == g.locals && g'.accepted == g.accepted
  {
    var step := RaftStep(GetAppendReply(call, reply));
    g' := AfterGroup(g, step);
    assert g'.raft == AfterAppendReply(g.raft, call, reply);
  }

  // ---------- stretches of the run ----------

  /** `n` stands for election and wins it with the vote of `p`. */
  lemma Elect(run: seq<Group>, nodes: map<NodeId, NodeState>, locals: map<NodeId, Local>, accepted: set<Acceptance>,
              n: NodeId, p: NodeId, cand: NodeState, voter: NodeState, reply: RequestVoteReply, winner: NodeState)
    returns (run': seq<Group>)
    requires At(run, nodes, locals, accepted) && n in nodes && p in nodes && n != p
    requires nodes[n].running && nodes[n].role != Leader && nodes[n].peers == [p]
    requires cand == StartElection(nodes[n]) && |cand.log| > 0
    requires (voter, reply) == HandleRequestVote(nodes[p], VoteRequest(cand))
    requires winner == ReceiveVoteReply(cand, cand.currentTerm, reply)
    requires Fit(n, cand) && Fit(p, voter) && Fit(n, winner)
    ensures run <= run' && At(run', nodes[p := voter][n := winner], locals, accepted)
  {
    var g := run[|run| - 1];
    var call := VoteCall(n, p, VoteRequest(cand));
    var g1, g2, g3 := ElectGroup(g, n, p, cand, voter, winner, reply);
    ElectHealthy(g, g1, g2, g3, n, p, cand, voter, winner);
    run' := Three(run, nodes, locals, accepted, RaftStep(ElectionTimeout(n)), g1, RaftStep(ServeVote(call)), g2,
                  RaftStep(GetVoteReply(call, reply)), g3);
  }

  lemma ElectGroup(g: Group, n: NodeId, p: NodeId, cand: NodeState, voter: NodeState, winner: NodeState, reply: RequestVoteReply)
    returns (g1: Group, g2: Group, g3: Group)
    requires Present(g, n) && Present(g, p) && n != p
    requires g.raft.nodes[n].id == n && cand.commitIndex < |cand.log|
    requires g.raft.nodes[n].running && g.raft.nodes[n].role != Leader && g.raft.nodes[n].peers == [p]
    requires cand == StartElection(g.raft.nodes[n]) && |cand.log| > 0
    requires (voter, reply) == HandleRequestVote(g.raft.nodes[p], VoteRequest(cand))
    requires winner == ReceiveVoteReply(cand, cand.currentTerm, reply)
    ensures var call := VoteCall(n, p, VoteRequest(cand));
            && Leads(g, RaftStep(ElectionTimeout(n)), g1)
            && Leads(g1, RaftStep(ServeVote(call)), g2)
            && Leads(g2, RaftStep(GetVoteReply(call, reply)), g3)
    ensures g1.raft.nodes == g.raft.nodes[n := cand] && g2.raft.nodes == g1.raft.nodes[p := voter]
    ensures g3.raft.nodes == g2.raft.nodes[n := winner]
    ensures g1.locals == g2.locals == g3.locals == g.locals && g1.accepted == g2.accepted == g3.accepted == g.accepted
  {
    var call := VoteCall(n, p, VoteRequest(cand));
    g1 := DoTimeout(g, n, p, cand);
    g2 := DoServeVote(g1, call, voter, reply);
    g3 := DoVoteReply(g2, call, reply, winner);
  }

  lemma ElectHealthy(g: Group, g1: Group, g2: Group, g3: Group, n: NodeId, p: NodeId, cand: NodeState, voter: NodeState, winner: NodeState)
    requires Healthy(g) && n in g.raft.nodes && p in g.raft.nodes && n != p
    requires g1.raft.nodes == g.raft.nodes[n := cand] && g2.raft.nodes == g1.raft.nodes[p := voter]
    requires g3.raft.nodes == g2.raft.nodes[n := winner]
    requires Fit(n, cand) && Fit(p, voter) && Fit(n, winner)
    ensures Healthy(g1) && Healthy(g2) && Healthy(g3)
    ensures g1.raft.nodes.Keys == g2.raft.nodes.Keys == g3.raft.nodes.Keys == g.raft.nodes.Keys
    ensures g3.raft.nodes == g.raft.nodes[p := voter][n := winner]
  {
    StaysHealthy(g, g1, n);
    StaysHealthy(g1, g2, p);
    StaysHealthy(g2, g3, n);
    LastUpdateCounts(g.raft.nodes, n, cand, p, voter, winner);
  }

  lemma LastUpdateCounts<K, V>(m: map<K, V>, n: K, a: V, p: K, b: V, c: V)
    requires n != p
    ensures m[n := a][p := b][n := c] == m[p := b][n := c]
  {}

  lemma StaysHealthy(g: Group, g': Group, n: NodeId)
    requires Healthy(g) && n in g'.raft.nodes && g'.raft.nodes == g.raft.nodes[n := g'.raft.nodes[n]] && Fit(n, g'.raft.nodes[n])
    ensures Healthy(g')
  {}

  lemma Three(run: seq<Group>, nodes: map<NodeId, NodeState>, locals: map<NodeId, Local>, accepted: set<Acceptance>,
              s1: GroupStep, g1: Group, s2: GroupStep, g2: Group, s3: GroupStep, g3: Group) returns (run': seq<Group>)
    requires At(run, nodes, locals, accepted)
    requires Leads(run[|run| - 1], s1, g1) && Leads(g1, s2, g2) && Leads(g2, s3, g3)
    requires !s1.StartRemove? && !s2.StartRemove? && !s3.StartRemove?
    requires g1.raft.nodes.Keys == g2.raft.nodes.Keys == g3.raft.nodes.Keys == nodes.Keys
    requires Healthy(g1) && Healthy(g2) && Healthy(g3)
    ensures run <= run' && At(run', g3.raft.nodes, g3.locals, g3.accepted)
  {
    var run2 := Two(run, nodes, locals, accepted, s1, g1, s2, g2);
    run' := Extend(run2, g2.raft.nodes, g2.locals, g2.accepted, s3, g3);
  }

  lemma Two(run: seq<Group>, nodes: map<NodeId, NodeState>, locals: map<NodeId, Local>, accepted: set<Acceptance>,
            s1: GroupStep, g1: Group, s2: GroupStep, g2: Group) returns (run': seq<Group>)
    requires At(run, nodes, locals, accepted)
    requires Leads(run[|run| - 1], s1, g1) && Leads(g1, s2, g2)
    requires !s1.StartRemove? && !s2.StartRemove?
    requires g1.raft.nodes.Keys == g2.raft.nodes.Keys == nodes.Keys
    requires Healthy(g1) && Healthy(g2)
    ensures run <= run' && run'[|run'| - 1] == g2 && At(run', g2.raft.nodes, g2.locals, g2.accepted)
  {
    run' := Extend(run, nodes, locals, accepted, s1, g1);
    run' := Extend(run', g1.raft.nodes, g1.locals, g1.accepted, s2, g2);
  }

  /** The leader `n` sends what it has to `p`, who takes it; the answer goes astray. */
  lemma Send(run: seq<Group>, nodes: map<NodeId, NodeState>, locals: map<NodeId, Local>, accepted: set<Acceptance>,
             n: NodeId, p: NodeId, taker: NodeState) returns (run': seq<Group>)
    requires At(run, nodes, locals, accepted) && n in nodes && p in nodes && n != p
    requires nodes[n].running && nodes[n].role == Leader && p in nodes[n].peers && CanReplicate(nodes[n], p)
    requires taker == HandleAppendEntries(nodes[p], AppendRequest(nodes[n], p)).0 && Fit(p, taker)
    ensures run <= run' && At(run', nodes[p := taker], locals, accepted)
  {
    var g1, call := DoSend(run[|run| - 1], n, p);
    run' := Extend(run, nodes, locals, accepted, RaftStep(SendAppend(n, p)), g1);
    var g2 := DoServeAppend(g1, call);
    run' := Extend(run', g1.raft.nodes, locals, accepted, RaftStep(ServeAppend(call)), g2);
  }

  /** The same, and the answer arrives. */
  lemma Replicate(run: seq<Group>, nodes: map<NodeId, NodeState>, locals: map<NodeId, Local>, accepted: set<Acceptance>,
                  n: NodeId, p: NodeId, taker: NodeState, reply: AppendEntriesReply, leader: NodeState) returns (run': seq<Group>)
    requires At(run, nodes, locals, accepted) && n in nodes && p in nodes && n != p
    requires nodes[n].running && nodes[n].role == Leader && p in nodes[n].peers && CanReplicate(nodes[n], p)
    requires (taker, reply) == HandleAppendEntries(nodes[p], AppendRequest(nodes[n], p)) && Fit(p, taker)
    requires leader == ReceiveAppendReply(nodes[n], p, AppendRequest(nodes[n], p), reply) && Fit(n, leader)
    ensures run <= run' && At(run', nodes[p := taker][n := leader], locals, accepted)
  {
    var call, g1, g2, g3 := ReplicateGroup(run[|run| - 1], n, p, taker, reply, leader);
    run' := Three(run, nodes, locals, accepted, RaftStep(SendAppend(n, p)), g1, RaftStep(ServeAppend(call)), g2,
                  RaftStep(GetAppendReply(call, reply)), g3);
  }

  lemma ReplicateGroup(g: Group, n: NodeId, p: NodeId, taker: NodeState, reply: AppendEntriesReply, leader: NodeState)
    returns (call: AppendCall, g1: Group, g2: Group, g3: Group)
    requires Present(g, n) && Present(g, p) && n != p
    requires g.raft.nodes[n].running && g.raft.nodes[n].role == Leader && p in g.raft.nodes[n].peers
    requires CanReplicate(g.raft.nodes[n], p)
    requires (taker, reply) == HandleAppendEntries(g.raft.nodes[p], AppendRequest(g.raft.nodes[n], p))
    requires leader == ReceiveAppendReply(g.raft.nodes[n], p, AppendRequest(g.raft.nodes[n], p), reply) && Fit(n, leader)
    ensures Leads(g, RaftStep(SendAppend(n, p)), g1) && Leads(g1, RaftStep(ServeAppend(call)), g2)
    ensures Leads(g2, RaftStep(GetAppendReply(call, reply)), g3)
    ensures g1.raft.nodes == g.raft.nodes && g2.raft.nodes == g.raft.nodes[p := taker]
    ensures g3.raft.nodes == g.raft.nodes[p := taker][n := leader]
    ensures g1.locals == g2.locals == g3.locals == g.locals && g1.accepted == g2.accepted == g3.accepted == g.accepted
  {
    g1, call := DoSend(g, n, p);
    g2 := DoServeAppend(g1, call);
    g3 := DoAppendReply(g2, call, reply);
  }

  /** `n` applies what is committed, and its registry follows. */
  lemma Deliver(run: seq<Group>, nodes: map<NodeId, NodeState>, locals: map<NodeId, Local>, accepted: set<Acceptance>,
                n: NodeId, s: NodeState, agents: Agents) returns (run': seq<Group>)
    requires At(run, nodes, locals, accepted) && n in nodes
    requires nodes[n].running && nodes[n].applySignal && nodes[n].lastApplied < nodes[n].commitIndex
    requires s == RaftSpec.Apply(nodes[n])
    requires agents == ApplyRange(locals[n].agents, s.log, nodes[n].lastApplied, s.commitIndex)
    ensures run <= run' && At(run', nodes[n := s], locals[n := locals[n].(agents := agents)], accepted)
  {
    var g, step := run[|run| - 1], RaftStep(ApplyCommitted(n));
    var g' := AfterGroup(g, step);
    run' := Extend(run, nodes, locals, accepted, step, g');
  }

  lemma StartUp(run: seq<Group>, nodes: map<NodeId, NodeState>, locals: map<NodeId, Local>, accepted: set<Acceptance>,
                n: NodeId) returns (run': seq<Group>)
    requires At(run, nodes, locals, accepted) && n in nodes && !nodes[n].running
    ensures run <= run' && At(run', nodes[n := RaftSpec.Start(nodes[n])], locals, accepted)
  {
    var g, step := run[|run| - 1], RaftStep(StartNode(n));
    run' := Extend(run, nodes, locals, accepted, step, AfterGroup(g, step));
  }

  /** `add_agent` at the leader `n`, from the lock to the proposal. */
  lemma Add(run: seq<Group>, nodes: map<NodeId, NodeState>, locals: map<NodeId, Local>, accepted: set<Acceptance>,
            n: NodeId, agent: Agent, s: NodeState, l: Local) returns (run': seq<Group>)
    requires At(run, nodes, locals, accepted) && n in nodes
    requires nodes[n].role == Leader && CaughtUp(nodes[n]) && locals[n].task == Free
    requires s == Propose(nodes[n], Snapshot(Put(locals[n].agents, agent)))
    requires l == locals[n].(agents := Put(locals[n].agents, agent),
                             task := Adding(agent, locals[n].agents, |nodes[n].log|, nodes[n].currentTerm))
    ensures run <= run' && At(run', nodes[n := s], locals[n := l], accepted)
  {
    var g1, g2 := AddGroup(run[|run| - 1], n, agent, s, l);
    run' := Two(run, nodes, locals, accepted, StartAdd(n, agent), g1, TakeAddSnapshot(n), g2);
  }

  lemma AddGroup(g: Group, n: NodeId, agent: Agent, s: NodeState, l: Local) returns (g1: Group, g2: Group)
    requires Present(g, n) && g.raft.nodes[n].role == Leader && CaughtUp(g.raft.nodes[n]) && g.locals[n].task == Free
    requires s == Propose(g.raft.nodes[n], Snapshot(Put(g.locals[n].agents, agent)))
    requires l == g.locals[n].(agents := Put(g.locals[n].agents, agent),
                               task := Adding(agent, g.locals[n].agents, |g.raft.nodes[n].log|, g.raft.nodes[n].currentTerm))
    ensures Leads(g, StartAdd(n, agent), g1) && Leads(g1, TakeAddSnapshot(n), g2)
    ensures g1.raft.nodes == g.raft.nodes && g2.raft.nodes == g.raft.nodes[n := s]
    ensures g2.locals == g.locals[n := l] && g2.accepted == g.accepted
  {
    g1 := AfterGroup(g, StartAdd(n, agent));
    g2 := AfterGroup(g1, TakeAddSnapshot(n));
  }

  lemma Answer(run: seq<Group>, nodes: map<NodeId, NodeState>, locals: map<NodeId, Local>, accepted: set<Acceptance>,
               n: NodeId) returns (run': seq<Group>)
    requires At(run, nodes, locals, accepted) && n in nodes && locals[n].task.Adding?
    ensures run <= run'
    ensures var l := locals[n];
            if PollApplied(nodes[n], l.task.index, l.task.term) == Ready
            then At(run', nodes, locals[n := FinishAdd(l)], accepted + {Acceptance(n, l.task.agent, l.task.index, l.task.term)})
            else At(run', nodes, locals[n := RollBack(l)], accepted)
  {
    var l := locals[n];
    var step := if PollApplied(nodes[n], l.task.index, l.task.term) == Ready then Accept(n) else TakeBack(n);
    run' := Extend(run, nodes, locals, accepted, step, AfterGroup(run[|run| - 1], step));
  }

  /** A tick at the caught-up leader `n`. */
  lemma Tick(run: seq<Group>, nodes: map<NodeId, NodeState>, locals: map<NodeId, Local>, accepted: set<Acceptance>,
             n: NodeId, s: NodeState, l: Local) returns (run': seq<Group>)
    requires At(run, nodes, locals, accepted) && n in nodes
    requires nodes[n].role == Leader && CaughtUp(nodes[n]) && locals[n].task == Free && !locals[n].ticking
    requires s == Propose(nodes[n], Snapshot(StepAll(locals[n].agents, GRID)))
    requires l == locals[n].(agents := StepAll(locals[n].agents, GRID))
    ensures run <= run' && At(run', nodes[n := s], locals[n := l], accepted)
  {
    var g1, g2 := TickGroup(run[|run| - 1], n, s, l);
    run' := Two(run, nodes, locals, accepted, StartTick(n), g1, TakeTickSnapshot(n), g2);
  }

  lemma TickGroup(g: Group, n: NodeId, s: NodeState, l: Local) returns (g1: Group, g2: Group)
    requires Present(g, n) && g.raft.nodes[n].role == Leader && CaughtUp(g.raft.nodes[n])
    requires g.locals[n].task == Free && !g.locals[n].ticking
    requires s == Propose(g.raft.nodes[n], Snapshot(StepAll(g.locals[n].agents, g.grid)))
    requires l == g.locals[n].(agents := StepAll(g.locals[n].agents, g.grid))
    ensures Leads(g, StartTick(n), g1) && Leads(g1, TakeTickSnapshot(n), g2)
    ensures g1.raft.nodes == g.raft.nodes && g2.raft.nodes == g.raft.nodes[n := s]
    ensures g2.locals == g.locals[n := l] && g2.accepted == g.accepted
  {
    g1 := AfterGroup(g, StartTick(n));
    g2 := AfterGroup(g1, TakeTickSnapshot(n));
  }
}
