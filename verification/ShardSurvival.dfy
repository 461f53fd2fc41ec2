/** When an accepted agent stays for good: in every run in which, where its entry is, nobody
    asks to remove it again and no roll-back puts back a registry that lacks it. */
module ShardSurvival {
  import opened World
  import opened RaftTypes
  import RS = RaftSpec
  import opened RaftCluster
  import opened RaftInvariant
  import opened RaftFrames
  import opened RaftCompleteness
  import opened RaftPreservation
  import opened RaftSafety
  import opened ShardSpec
  import opened ShardGroup
  import opened ShardSafety
  import Leadership = ShardLeadership
  import opened Ways

  // ---------- when rolling back is right ----------

  datatype Found = Nothing | Last(agents: Agents)

  /** The last snapshot behind `lo` up to `hi`. */
  function LastSnapshot(log: Log, lo: nat, hi: nat): Found
    requires lo <= hi < |log|
    decreases hi
  {
    if lo == hi then Nothing
    else if log[hi].command.Snapshot? then Last(log[hi].command.agents)
    else LastSnapshot(log, lo, hi - 1)
  }

  lemma {:induction false} ReplayIsLastSnapshot(log: Log, lo: nat, hi: nat)
    requires lo <= hi < |log|
    ensures var found := LastSnapshot(log, lo, hi);
            Replay(log, hi) == if found.Last? then found.agents else Replay(log, lo)
    decreases hi
  {
    if lo < hi && log[hi].command.NoOp? {
      ReplayIsLastSnapshot(log, lo, hi - 1);
    }
  }

  /** What `add_agent` can look at before it rolls back: the last snapshot that was applied
      since it remembered the registry lists `x` only if the remembered registry does. */
  predicate Harmless(x: AgentId, s: NodeState, l: Local) {
    l.task.Adding? && 1 <= l.task.index <= s.lastApplied + 1 && s.lastApplied < |s.log| ==>
      var found := LastSnapshot(s.log, l.task.index - 1, s.lastApplied);
      found.Last? && x in found.agents ==> x in l.task.before
  }

  lemma {:induction false} SnapshotIsFound(log: Log, lo: nat, hi: nat, i: nat)
    requires lo < i <= hi < |log| && log[i].command.Snapshot?
    ensures LastSnapshot(log, lo, hi).Last?
    decreases hi
  {
    if !log[hi].command.Snapshot? {
      SnapshotIsFound(log, lo, hi - 1, i);
    }
  }

  // ---------- the invariant, for one accepted agent ----------

  /** The log holds the entry with which the agent was added. */
  ghost predicate HoldsEntry(log: Log, a: Acceptance) {
    a.index < |log| && Adds(log[a.index], a.agent, a.index, a.term)
  }

  predicate ListsAt(x: AgentId, log: Log, i: int) {
    0 <= i < |log| && x in Replay(log, i)
  }

  /** From that entry on, the log lists the agent. */
  ghost predicate Keeps(a: Acceptance, log: Log) {
    HoldsEntry(log, a) ==> forall i {:trigger ListsAt(a.agent.id, log, i)} | a.index <= i < |log| :: ListsAt(a.agent.id, log, i)
  }

  ghost predicate ReignsKeep(a: Acceptance, h: History) {
    forall t | t in h.reigns :: Keeps(a, h.reigns[t].log)
  }

  /** The replica has applied that entry. */
  ghost predicate Applied(a: Acceptance, s: NodeState) {
    HoldsEntry(s.log, a) && a.index <= s.lastApplied
  }

  /** The replica has the agent if it applied its entry, and so has what it may put back. */
  ghost predicate Remembers(a: Acceptance, s: NodeState, l: Local) {
    && s.lastApplied < |s.log|
    && (Applied(a, s) ==> a.agent.id in l.agents)
    && (l.task.Adding? ==>
          && 1 <= l.task.index <= s.lastApplied + 1
          && (HoldsEntry(s.log, a) && a.index < l.task.index ==> a.agent.id in l.task.before))
  }

  predicate Removes(x: AgentId, task: Task) {
    task.WaitToRemove? && x in task.ids
  }

  /** Who waits to be caught up waits for the last entry of its reign; and if it waits to
      remove the agent, that reign never had its entry. */
  ghost predicate WaitsForAll(a: Acceptance, h: History, n: NodeId, task: Task) {
    task.WaitToAdd? || task.WaitToRemove? ==>
      && task.term in h.reigns && h.reigns[task.term].leader == n && task.index == |ReignLog(h, task.term)| - 1
      && (Removes(a.agent.id, task) ==> !HoldsEntry(ReignLog(h, task.term), a))
  }

  ghost predicate ReplicaKeeps(a: Acceptance, g: Group, n: NodeId)
    requires n in g.locals && n in g.raft.nodes
  {
    Remembers(a, g.raft.nodes[n], g.locals[n]) && WaitsForAll(a, g.raft.history, n, g.locals[n].task)
  }

  ghost predicate GroupKeeps(a: Acceptance, g: Group) {
    && ReignsKeep(a, g.raft.history)
    && g.locals.Keys == g.raft.nodes.Keys
    && forall n | n in g.locals :: ReplicaKeeps(a, g, n)
  }

  // ---------- what a roll-back does ----------

  /** Where the agent's entry is applied, rolling back keeps the agent exactly if it is harmless. */
  lemma RollBackKeepsExactlyWhen(a: Acceptance, s: NodeState, l: Local)
    requires Remembers(a, s, l) && l.task.Adding? && Keeps(a, s.log) && Applied(a, s)
    ensures Remembers(a, s, RollBack(l)) <==> Harmless(a.agent.id, s, l)
  {
    ReplayIsLastSnapshot(s.log, l.task.index - 1, s.lastApplied);
    assert ListsAt(a.agent.id, s.log, s.lastApplied);
    if a.index >= l.task.index {
      SnapshotIsFound(s.log, l.task.index - 1, s.lastApplied, a.index);
    }
  }

  /** Say the registry was right when the snapshot for `index` was taken. Then
      rolling back leaves it right exactly if, since then, no snapshot was
      applied or the last one applied is the very registry that is restored. */
  lemma RollBackIsRight(s: NodeState, l: Local)
    requires l.task.Adding? && 1 <= l.task.index <= s.lastApplied + 1 && s.lastApplied < |s.log|
    requires l.task.before == Replay(s.log, l.task.index - 1)
    ensures RollBack(l).agents == Replay(s.log, s.lastApplied) <==>
            var found := LastSnapshot(s.log, l.task.index - 1, s.lastApplied);
            found == Nothing || found == Last(l.task.before)
  {
    ReplayIsLastSnapshot(s.log, l.task.index - 1, s.lastApplied);
  }

  // ---------- logs ----------

  lemma KeepsPrefix(a: Acceptance, log: Log, full: Log, k: nat)
    requires Keeps(a, full) && k <= |log| && Agree(log, full, k) && HoldsEntry(log, a)
    ensures forall i | a.index <= i < k :: ListsAt(a.agent.id, log, i)
  {
    forall i | a.index <= i < k ensures ListsAt(a.agent.id, log, i) {
      assert log[a.index] == full[a.index] && ListsAt(a.agent.id, full, i);
      SameReplay(log, full, i);
    }
  }

  lemma SameReplay(a: Log, b: Log, k: nat)
    requires Agree(a, b, k + 1)
    ensures Replay(a, k) == Replay(b, k)
  {
    assert a[..k + 1] == b[..k + 1];
    ReplayPrefix(a, b, k);
  }

  /** Every log of the group is made of leaders' logs, so it keeps the agent too. */
  lemma FromLeadersKeeps(a: Acceptance, h: History, log: Log)
    requires ReignsKeep(a, h) && FromLeaders(h, log)
    ensures Keeps(a, log)
  {
    if HoldsEntry(log, a) {
      forall i | a.index <= i < |log| ensures ListsAt(a.agent.id, log, i) {
        assert Rooted(h, log, i);
        KeepsPrefix(a, log, ReignLog(h, log[i].term), i + 1);
      }
    }
  }

  lemma LongerKeeps(a: Acceptance, log: Log, entry: Entry)
    requires |log| > 0 && Keeps(a, log)
    requires entry.command.Snapshot? && HoldsEntry(log, a) ==> a.agent.id in entry.command.agents
    ensures Keeps(a, log + [entry])
  {
    var log' := log + [entry];
    if HoldsEntry(log, a) {
      KeepsPrefix(a, log', log, |log|);
      assert ListsAt(a.agent.id, log', |log| - 1);
    }
    assert Replay(log', |log|) == ApplyEntry(Replay(log', |log| - 1), entry);
  }

  // ---------- what Raft does underneath ----------

  /** What a node has committed stays where it is. */
  lemma CommittedStays(c: Cluster, c': Cluster, n: NodeId)
    requires Invariant(c) && Invariant(c') && Next(c, c') && n in c.nodes && n in c'.nodes
    ensures c.nodes[n].commitIndex <= c'.nodes[n].commitIndex
    ensures Agree(c.nodes[n].log, c'.nodes[n].log, c.nodes[n].commitIndex + 1)
  {
    NextIsLater(c, c');
    KnownOf(c, n);
    KnownOf(c', n);
    CommittedAgree(c.history, c'.history, c'.nodes.Keys, c.nodes[n], c'.nodes[n]);
  }

  lemma CommittedAgree(h: History, h': History, ids: set<NodeId>, s: NodeState, s': NodeState)
    requires HistoryOk(h', ids) && Continues(h, h') && s.commitIndex <= s'.commitIndex
    requires CommittedUpTo(h, s.currentTerm, s.log, s.commitIndex)
    requires CommittedUpTo(h', s'.currentTerm, s'.log, s'.commitIndex)
    ensures Agree(s.log, s'.log, s.commitIndex + 1)
  {
    CommittedGrows(h, h', s.currentTerm, s.currentTerm, s.log, s.commitIndex);
    CommittedPrefixesAgree(h', ids, s.currentTerm, s.log, s.commitIndex, s'.currentTerm, s'.log, s'.commitIndex);
  }

  lemma NoReignChanges(c: Cluster, step: Step)
    requires Defined(c, step) && !step.ProposeCommand? && !step.GetVoteReply?
    ensures After(c, step).history.reigns == c.history.reigns
  {}

  /** A step that proposes nothing leaves every reign as it is. */
  lemma ReignsStay(c: Cluster, step: Step)
    requires Invariant(c) && Possible(c, step) && Defined(c, step) && !step.ProposeCommand?
    ensures forall t | t in c.history.reigns :: t in After(c, step).history.reigns && After(c, step).history.reigns[t] == c.history.reigns[t]
  {
    if step.GetVoteReply? {
      StepKeepsInvariant(c, step);
      KnownOf(c, step.voteCall.src);
      VictoryIsNew(c, step.voteCall, step.voteReply);
    } else {
      NoReignChanges(c, step);
    }
  }

  lemma VictoryIsNew(c: Cluster, call: VoteCall, reply: RequestVoteReply)
    requires Defined(c, GetVoteReply(call, reply)) && c.nodes[call.src].id == call.src
    requires CandidateOk(c.history, c.nodes.Keys, c.nodes[call.src])
    requires Continues(c.history, AfterVoteReply(c, call, reply).history)
    ensures forall t | t in c.history.reigns ::
              t in AfterVoteReply(c, call, reply).history.reigns
              && AfterVoteReply(c, call, reply).history.reigns[t] == c.history.reigns[t]
  {
    var h, h', s := c.history, AfterVoteReply(c, call, reply).history, c.nodes[call.src];
    forall t | t in h.reigns ensures t in h'.reigns && h'.reigns[t] == h.reigns[t] {
      assert ReignExtends(h.reigns[t], h'.reigns[t]);
    }
  }

  /** A new reign adds a no-op to the winner's log. */
  lemma VoteReplyReigns(c: Cluster, call: VoteCall, reply: RequestVoteReply)
    requires Defined(c, GetVoteReply(call, reply))
    ensures var h, s := c.history, c.nodes[call.src];
            var h' := AfterVoteReply(c, call, reply).history;
            forall t | t in h'.reigns ::
              (t in h.reigns && h'.reigns[t] == h.reigns[t])
              || h'.reigns[t].log == s.log + [Entry(s.currentTerm, |s.log|, NoOp)]
  {}

  lemma SameReignsKeep(a: Acceptance, h: History, h': History)
    requires ReignsKeep(a, h) && h'.reigns == h.reigns
    ensures ReignsKeep(a, h')
  {}

  lemma RaftStepKeepsNames(a: Acceptance, c: Cluster, step: Step)
    requires Invariant(c) && Possible(c, step) && Defined(c, step) && !step.ProposeCommand?
    requires ReignsKeep(a, c.history)
    ensures ReignsKeep(a, After(c, step).history)
  {
    if step.GetVoteReply? {
      KnownOf(c, step.voteCall.src);
      NewReignKeeps(a, c, step.voteCall, step.voteReply);
    } else {
      NoReignChanges(c, step);
      SameReignsKeep(a, c.history, After(c, step).history);
    }
  }

  lemma NewReignKeeps(a: Acceptance, c: Cluster, call: VoteCall, reply: RequestVoteReply)
    requires Defined(c, GetVoteReply(call, reply)) && ReignsKeep(a, c.history)
    requires FromLeaders(c.history, c.nodes[call.src].log)
    ensures ReignsKeep(a, AfterVoteReply(c, call, reply).history)
  {
    var s := c.nodes[call.src];
    FromLeadersKeeps(a, c.history, s.log);
    LongerKeeps(a, s.log, Entry(s.currentTerm, |s.log|, NoOp));
    VoteReplyReigns(c, call, reply);
  }

  // ---------- one replica, one step ----------

  /** The log may change behind what is applied, and nothing else does. */
  lemma RemembersFrame(a: Acceptance, s: NodeState, s': NodeState, l: Local)
    requires Remembers(a, s, l) && s'.lastApplied == s.lastApplied && Agree(s.log, s'.log, s.lastApplied + 1)
    ensures Remembers(a, s', l)
  {
    assert a.index <= s.lastApplied ==> s.log[a.index] == s'.log[a.index];
  }

  lemma DeliveryRemembers(a: Acceptance, s: NodeState, s': NodeState, l: Local)
    requires Remembers(a, s, l) && Keeps(a, s.log) && s'.log == s.log && s.lastApplied <= s'.lastApplied < |s.log|
    ensures Remembers(a, s', l.(agents := ApplyRange(l.agents, s.log, s.lastApplied, s'.lastApplied)))
  {
    ApplyRangeForgets(l.agents, Replay(s.log, s.lastApplied), s.log, s.lastApplied, s'.lastApplied);
    ReplayOnwards(s.log, s.lastApplied, s'.lastApplied);
    if Applied(a, s') {
      assert ListsAt(a.agent.id, s.log, s'.lastApplied) && s.log[a.index].command.Snapshot?;
    }
  }

  /** What an operation other than its removal leaves of `x`. */
  lemma PerformKeeps(x: AgentId, grid: Grid, op: Operation, before: Agents)
    requires x in before && (op.DropThese? ==> x !in op.ids)
    ensures x in Perform(grid, op, before)
  {}

  /** A caught-up leader proposes `op` done to its registry. */
  lemma ProposalRemembers(a: Acceptance, s: NodeState, l: Local, agents: Agents, l': Local)
    requires Remembers(a, s, l) && s.role == Leader && CaughtUp(s)
    requires (HoldsEntry(s.log, a) && a.agent.id in l.agents ==> a.agent.id in agents) && l'.agents == agents
    requires l'.task.Adding? ==> l'.task.index == |s.log| && l'.task.before == l.agents
    ensures Remembers(a, RS.Propose(s, Snapshot(agents)), l')
    ensures HoldsEntry(s.log, a) ==> a.agent.id in agents
  {}

  // ---------- the group, one step ----------

  /** A step of replica `n` that leaves the reigns alone keeps everyone else as they are. */
  lemma OthersKeep(a: Acceptance, g: Group, g': Group, n: NodeId)
    requires GroupKeeps(a, g) && n in g.locals && n in g'.locals && n in g'.raft.nodes
    requires g'.raft.nodes == g.raft.nodes[n := g'.raft.nodes[n]] && g'.locals == g.locals[n := g'.locals[n]]
    requires forall t | t in g.raft.history.reigns && g.raft.history.reigns[t].leader != n ::
               t in g'.raft.history.reigns && g'.raft.history.reigns[t] == g.raft.history.reigns[t]
    requires ReignsKeep(a, g'.raft.history) && ReplicaKeeps(a, g', n)
    ensures GroupKeeps(a, g')
  {
    forall m | m in g'.locals ensures ReplicaKeeps(a, g', m) {
      if m != n {
        assert ReplicaKeeps(a, g, m);
      }
    }
  }

  /** What a Raft step does to the node that acts. */
  ghost predicate RaftMoves(s: NodeState, s': NodeState, l: Local, l': Local) {
    || (s'.lastApplied == s.lastApplied && l' == l && Agree(s.log, s'.log, s.lastApplied + 1))
    || (s'.log == s.log && s.lastApplied <= s'.lastApplied < |s.log|
        && l' == l.(agents := ApplyRange(l.agents, s.log, s.lastApplied, s'.lastApplied)))
  }

  lemma VoteStepApplies(s: NodeState, args: RequestVoteArgs, term: nat, reply: RequestVoteReply)
    requires |s.log| > 0
    ensures RS.HandleRequestVote(s, args).0.lastApplied == s.lastApplied
    ensures RS.ReceiveVoteReply(s, term, reply).lastApplied == s.lastApplied
  {}

  lemma AppendStepApplies(s: NodeState, args: AppendEntriesArgs)
    ensures RS.HandleAppendEntries(s, args).0.lastApplied == s.lastApplied
  {}

  /** Only the applier applies. */
  lemma OthersDoNotApply(c: Cluster, r: Step)
    requires Possible(c, r) && Defined(c, r) && !r.ApplyCommitted? && Actor(r) in After(c, r).nodes
    ensures After(c, r).nodes[Actor(r)].lastApplied == c.nodes[Actor(r)].lastApplied
  {
    var s := c.nodes[Actor(r)];
    match r
    case ServeVote(call) => VoteStepApplies(s, call.args, 0, RequestVoteReply(0, false));
    case GetVoteReply(call, reply) => VoteStepApplies(s, call.args, call.args.term, reply);
    case ServeAppend(call) => AppendStepApplies(s, call.args);
    case GetAppendReply(call, reply) => Leadership.AppendReplyKeepsLog(s, call.dst, call.args, reply);
    case _ =>
  }

  lemma RaftMovesActor(g: Group, r: Step)
    requires CanStep(g, RaftStep(r)) && Actor(r) in After(g.raft, r).nodes && Actor(r) in g.locals
    requires g.raft.nodes[Actor(r)].lastApplied <= g.raft.nodes[Actor(r)].commitIndex < |g.raft.nodes[Actor(r)].log|
    requires Agree(g.raft.nodes[Actor(r)].log, After(g.raft, r).nodes[Actor(r)].log, g.raft.nodes[Actor(r)].lastApplied + 1)
    ensures var n, g' := Actor(r), AfterGroup(g, RaftStep(r));
            RaftMoves(g.raft.nodes[n], g'.raft.nodes[n], g.locals[n], g'.locals[n])
  {
    if !r.ApplyCommitted? {
      OthersDoNotApply(g.raft, r);
    }
  }

  lemma ActorOnly(c: Cluster, step: Step)
    requires Possible(c, step) && Defined(c, step)
    ensures Actor(step) in After(c, step).nodes
    ensures After(c, step).nodes == c.nodes[Actor(step) := After(c, step).nodes[Actor(step)]]
  {}

  lemma RaftStepOfGroup(a: Acceptance, g: Group, r: Step)
    requires GroupInvariant(g) && GroupKeeps(a, g) && CanStep(g, RaftStep(r))
    ensures GroupKeeps(a, AfterGroup(g, RaftStep(r)))
  {
    var n, g' := Actor(r), AfterGroup(g, RaftStep(r));
    ActorOnly(g.raft, r);
    RaftStepKeepsNames(a, g.raft, r);
    ReignsStay(g.raft, r);
    AppliedStays(g.raft, r, n);
    KnownOf(g.raft, n);
    FromLeadersKeeps(a, g.raft.history, g.raft.nodes[n].log);
    RaftMovesActor(g, r);
    RaftStepShape(g, r);
    MovedKeeps(a, g, g', n);
  }

  lemma RaftStepShape(g: Group, r: Step)
    requires CanStep(g, RaftStep(r)) && g.locals.Keys == g.raft.nodes.Keys
    ensures var n, g' := Actor(r), AfterGroup(g, RaftStep(r));
            && n in g'.locals && g'.locals == g.locals[n := g'.locals[n]] && g'.locals[n].task == g.locals[n].task
            && g'.raft == After(g.raft, r)
  {}

  lemma MovedKeeps(a: Acceptance, g: Group, g': Group, n: NodeId)
    requires GroupKeeps(a, g) && n in g.locals && n in g'.locals && n in g'.raft.nodes
    requires g'.raft.nodes == g.raft.nodes[n := g'.raft.nodes[n]] && g'.locals == g.locals[n := g'.locals[n]]
    requires RaftMoves(g.raft.nodes[n], g'.raft.nodes[n], g.locals[n], g'.locals[n]) && g'.locals[n].task == g.locals[n].task
    requires Keeps(a, g.raft.nodes[n].log)
    requires forall t | t in g.raft.history.reigns ::
               t in g'.raft.history.reigns && g'.raft.history.reigns[t] == g.raft.history.reigns[t]
    requires ReignsKeep(a, g'.raft.history)
    ensures GroupKeeps(a, g')
  {
    assert ReplicaKeeps(a, g, n);
    MovedRemembers(a, g.raft.nodes[n], g'.raft.nodes[n], g.locals[n], g'.locals[n]);
    OthersKeep(a, g, g', n);
  }

  lemma MovedRemembers(a: Acceptance, s: NodeState, s': NodeState, l: Local, l': Local)
    requires Remembers(a, s, l) && Keeps(a, s.log) && RaftMoves(s, s', l, l')
    ensures Remembers(a, s', l')
  {
    if s'.lastApplied == s.lastApplied && l' == l && Agree(s.log, s'.log, s.lastApplied + 1) {
      RemembersFrame(a, s, s', l);
    } else {
      DeliveryRemembers(a, s, s', l);
    }
  }

  lemma AppliedStays(c: Cluster, step: Step, n: NodeId)
    requires Invariant(c) && Possible(c, step) && Defined(c, step) && n in c.nodes && n in After(c, step).nodes
    ensures Agree(c.nodes[n].log, After(c, step).nodes[n].log, c.nodes[n].lastApplied + 1)
  {
    StepKeepsInvariant(c, step);
    KnownOf(c, n);
    assert Next(c, After(c, step));
    CommittedStays(c, After(c, step), n);
    AgreeShorter(c.nodes[n].log, After(c, step).nodes[n].log, c.nodes[n].commitIndex + 1, c.nodes[n].lastApplied + 1);
  }

  lemma ProposalShape(g: Group, n: NodeId, op: Operation, agents: Agents, l': Local)
    requires Present(g, n)
    ensures var g' := ProposeAnd(g, n, op, agents, l');
            && g'.raft == AfterPropose(g.raft, n, Snapshot(agents))
            && n in g'.locals && n in g'.raft.nodes && g'.locals == g.locals[n := l']
            && g'.raft.nodes == g.raft.nodes[n := RS.Propose(g.raft.nodes[n], Snapshot(agents))]
  {}

  /** Replica `n` is caught up in a group that keeps the agent. */
  ghost predicate Able(a: Acceptance, g: Group, n: NodeId) {
    Invariant(g.raft) && GroupKeeps(a, g) && Present(g, n) && CaughtUp(g.raft.nodes[n])
  }

  /** It goes on as `l'`, having done `op` to its registry, which does not drop the agent if its entry is there. */
  ghost predicate Follows(a: Acceptance, grid: Grid, s: NodeState, l: Local, op: Operation, l': Local) {
    && l'.agents == Perform(grid, op, l.agents) && (op.DropThese? && HoldsEntry(s.log, a) ==> a.agent.id !in op.ids)
    && (l'.task.Free? || (l'.task.Adding? && s.role == Leader && l'.task.index == |s.log| && l'.task.before == l.agents))
  }

  /** Replica `n`, caught up, does `op` to its registry and proposes the result if it leads. */
  lemma ProposalKeeps(a: Acceptance, g: Group, n: NodeId, op: Operation, l': Local)
    requires Able(a, g, n) && Follows(a, g.grid, g.raft.nodes[n], g.locals[n], op, l')
    ensures GroupKeeps(a, ProposeAnd(g, n, op, l'.agents, l'))
  {
    assert ReplicaKeeps(a, g, n);
    ProposerRemembers(a, g.grid, g.raft.nodes[n], g.locals[n], op, l');
    ProposalReigns(a, g.raft, n, l'.agents);
    ProposalLocals(a, g, n, op, l');
  }

  lemma ProposalLocals(a: Acceptance, g: Group, n: NodeId, op: Operation, l': Local)
    requires Present(g, n) && GroupKeeps(a, g) && (l'.task.Free? || l'.task.Adding?)
    requires Remembers(a, RS.Propose(g.raft.nodes[n], Snapshot(l'.agents)), l')
    requires var h, h' := g.raft.history, AfterPropose(g.raft, n, Snapshot(l'.agents)).history;
             && ReignsKeep(a, h')
             && forall t | t in h.reigns && h.reigns[t].leader != n :: t in h'.reigns && h'.reigns[t] == h.reigns[t]
    ensures GroupKeeps(a, ProposeAnd(g, n, op, l'.agents, l'))
  {
    ProposalShape(g, n, op, l'.agents, l');
    NewRegistryKeeps(a, g, ProposeAnd(g, n, op, l'.agents, l'), n);
  }

  lemma ProposerRemembers(a: Acceptance, grid: Grid, s: NodeState, l: Local, op: Operation, l': Local)
    requires Remembers(a, s, l) && CaughtUp(s) && |s.log| > 0 && Follows(a, grid, s, l, op, l')
    ensures Remembers(a, RS.Propose(s, Snapshot(l'.agents)), l')
    ensures HoldsEntry(s.log, a) ==> a.agent.id in l'.agents
  {
    if HoldsEntry(s.log, a) {
      PerformKeeps(a.agent.id, grid, op, l.agents);
    }
    if s.role == Leader {
      ProposalRemembers(a, s, l, l'.agents, l');
    }
  }

  lemma NewRegistryKeeps(a: Acceptance, g: Group, g': Group, n: NodeId)
    requires GroupKeeps(a, g) && n in g.locals && n in g'.locals && n in g'.raft.nodes
    requires g'.raft.nodes == g.raft.nodes[n := g'.raft.nodes[n]] && g'.locals == g.locals[n := g'.locals[n]]
    requires Remembers(a, g'.raft.nodes[n], g'.locals[n]) && (g'.locals[n].task.Free? || g'.locals[n].task.Adding?)
    requires ReignsKeep(a, g'.raft.history)
    requires forall t | t in g.raft.history.reigns && g.raft.history.reigns[t].leader != n ::
               t in g'.raft.history.reigns && g'.raft.history.reigns[t] == g.raft.history.reigns[t]
    ensures GroupKeeps(a, g')
  {
    OthersKeep(a, g, g', n);
  }

  lemma ProposalReigns(a: Acceptance, c: Cluster, n: NodeId, agents: Agents)
    requires Invariant(c) && n in c.nodes && |c.nodes[n].log| > 0 && ReignsKeep(a, c.history)
    requires HoldsEntry(c.nodes[n].log, a) ==> a.agent.id in agents
    ensures var h' := AfterPropose(c, n, Snapshot(agents)).history;
            && ReignsKeep(a, h')
            && forall t | t in c.history.reigns && c.history.reigns[t].leader != n ::
                 t in h'.reigns && h'.reigns[t] == c.history.reigns[t]
  {
    var s := c.nodes[n];
    if s.role == Leader {
      KnownOf(c, n);
      FromLeadersKeeps(a, c.history, s.log);
      LongerKeeps(a, s.log, Entry(s.currentTerm, |s.log|, Snapshot(agents)));
    }
  }

  /** What a waiting leader finds when its wait is over. */
  lemma ReadyIsCaughtUp(a: Acceptance, c: Cluster, n: NodeId, task: Task)
    requires Invariant(c) && n in c.nodes && (task.WaitToAdd? || task.WaitToRemove?)
    requires WaitsForAll(a, c.history, n, task) && PollApplied(c.nodes[n], task.index, task.term) == Ready
    ensures CaughtUp(c.nodes[n]) && c.nodes[n].role == Leader
    ensures Removes(a.agent.id, task) ==> !HoldsEntry(c.nodes[n].log, a)
  {
    KnownOf(c, n);
  }

  lemma BeginWaits(c: Cluster, n: NodeId)
    requires Invariant(c) && n in c.nodes && c.nodes[n].role == Leader
    ensures var s := c.nodes[n];
            s.currentTerm in c.history.reigns && c.history.reigns[s.currentTerm].leader == n
            && s.log == ReignLog(c.history, s.currentTerm) && |s.log| > 0
  {
    KnownOf(c, n);
  }

  /** A step that only changes the task and the registry of replica `n`. */
  lemma LocalKeeps(a: Acceptance, g: Group, g': Group, n: NodeId)
    requires GroupKeeps(a, g) && n in g.locals && g'.raft == g.raft && n in g'.locals && g'.locals == g.locals[n := g'.locals[n]]
    requires ReplicaKeeps(a, g', n)
    ensures GroupKeeps(a, g')
  {
    OthersKeep(a, g, g', n);
  }

  /** A leader begins to wait for the end of its log. */
  lemma NewWait(a: Acceptance, c: Cluster, n: NodeId, task: Task)
    requires Invariant(c) && n in c.nodes && c.nodes[n].role == Leader && |c.nodes[n].log| > 0 && (task.WaitToAdd? || task.WaitToRemove?)
    requires task.index == |c.nodes[n].log| - 1 && task.term == c.nodes[n].currentTerm
    requires Removes(a.agent.id, task) ==> !HoldsEntry(c.nodes[n].log, a)
    ensures WaitsForAll(a, c.history, n, task)
  {
    BeginWaits(c, n);
  }

  lemma StartKeeps(a: Acceptance, g: Group, g': Group, n: NodeId)
    requires GroupKeeps(a, g) && n in g.locals && n in g'.locals
    requires g'.raft == g.raft && g'.locals == g.locals[n := g'.locals[n]]
    requires g'.locals[n].agents == g.locals[n].agents && !g'.locals[n].task.Adding?
    requires WaitsForAll(a, g.raft.history, n, g'.locals[n].task)
    ensures GroupKeeps(a, g')
  {
    assert ReplicaKeeps(a, g, n);
    LocalKeeps(a, g, g', n);
  }

  lemma StartAddKeeps(a: Acceptance, g: Group, n: NodeId, agent: Agent)
    requires Invariant(g.raft) && GroupKeeps(a, g) && CanStep(g, StartAdd(n, agent))
    ensures GroupKeeps(a, AfterGroup(g, StartAdd(n, agent)))
  {
    var g' := AfterGroup(g, StartAdd(n, agent));
    if g.raft.nodes[n].role == Leader {
      NewWait(a, g.raft, n, g'.locals[n].task);
    }
    StartKeeps(a, g, g', n);
  }

  lemma StartRemoveKeeps(a: Acceptance, g: Group, n: NodeId, ids: set<AgentId>)
    requires Invariant(g.raft) && GroupKeeps(a, g) && CanStep(g, StartRemove(n, ids)) && SparesIn(a, g, StartRemove(n, ids))
    ensures GroupKeeps(a, AfterGroup(g, StartRemove(n, ids)))
  {
    var g' := AfterGroup(g, StartRemove(n, ids));
    if g.raft.nodes[n].role == Leader {
      NewWait(a, g.raft, n, g'.locals[n].task);
    }
    StartKeeps(a, g, g', n);
  }

  lemma TakeBackKeeps(a: Acceptance, g: Group, n: NodeId)
    requires Invariant(g.raft) && GroupKeeps(a, g) && CanStep(g, TakeBack(n)) && SparesIn(a, g, TakeBack(n))
    ensures GroupKeeps(a, AfterGroup(g, TakeBack(n)))
  {
    assert ReplicaKeeps(a, g, n);
    KnownOf(g.raft, n);
    FromLeadersKeeps(a, g.raft.history, g.raft.nodes[n].log);
    RolledBackRemembers(a, g.raft.nodes[n], g.locals[n]);
    LocalKeeps(a, g, AfterGroup(g, TakeBack(n)), n);
  }

  lemma RolledBackRemembers(a: Acceptance, s: NodeState, l: Local)
    requires Remembers(a, s, l) && l.task.Adding? && Keeps(a, s.log) && (Applied(a, s) ==> Harmless(a.agent.id, s, l))
    ensures Remembers(a, s, RollBack(l))
  {
    if Applied(a, s) {
      RollBackKeepsExactlyWhen(a, s, l);
    }
  }

  lemma FinishKeeps(a: Acceptance, g: Group, step: GroupStep)
    requires GroupKeeps(a, g) && CanStep(g, step)
    requires step.AbandonAdd? || step.Accept? || step.StartTick? || step.AbandonRemove? || step.Cancel?
             || (step.TakeTickSnapshot? && !CaughtUp(g.raft.nodes[step.n]))
    ensures GroupKeeps(a, AfterGroup(g, step))
  {
    assert ReplicaKeeps(a, g, step.n);
    LocalKeeps(a, g, AfterGroup(g, step), step.n);
  }

  /** The wait of the task at replica `n` is over. */
  ghost predicate MayGoOn(g: Group, n: NodeId) {
    && Present(g, n)
    && var s, task := g.raft.nodes[n], g.locals[n].task;
       (task.WaitToAdd? || task.WaitToRemove?) && PollApplied(s, task.index, task.term) == Ready
  }

  lemma TheyMayGoOn(g: Group, n: NodeId)
    ensures CanStep(g, TakeAddSnapshot(n)) ==> MayGoOn(g, n)
    ensures CanStep(g, TakeRemoveSnapshot(n)) ==> MayGoOn(g, n)
  {}

  /** A task that may go on finds its replica leading and caught up. */
  lemma GoesOn(a: Acceptance, g: Group, n: NodeId)
    requires Invariant(g.raft) && GroupKeeps(a, g) && MayGoOn(g, n)
    ensures Able(a, g, n) && g.raft.nodes[n].role == Leader
    ensures Removes(a.agent.id, g.locals[n].task) ==> !HoldsEntry(g.raft.nodes[n].log, a)
  {
    assert ReplicaKeeps(a, g, n);
    ReadyIsCaughtUp(a, g.raft, n, g.locals[n].task);
  }

  lemma AddIsProposal(a: Acceptance, g: Group, n: NodeId) returns (op: Operation, l: Local)
    requires CanStep(g, TakeAddSnapshot(n)) && g.raft.nodes[n].role == Leader
    ensures AfterGroup(g, TakeAddSnapshot(n)) == ProposeAnd(g, n, op, l.agents, l)
    ensures Follows(a, g.grid, g.raft.nodes[n], g.locals[n], op, l)
  {
    op, l := PutOne(g.locals[n].task.agent), AddSnapshot(g.raft.nodes[n], g.locals[n]).1;
  }

  lemma AddedKeeps(a: Acceptance, g: Group, n: NodeId)
    requires Invariant(g.raft) && GroupKeeps(a, g) && CanStep(g, TakeAddSnapshot(n))
    ensures GroupKeeps(a, AfterGroup(g, TakeAddSnapshot(n)))
  {
    TheyMayGoOn(g, n);
    GoesOn(a, g, n);
    var op, l := AddIsProposal(a, g, n);
    ProposalKeeps(a, g, n, op, l);
  }

  lemma RemoveIsProposal(a: Acceptance, g: Group, n: NodeId) returns (op: Operation, l: Local)
    requires CanStep(g, TakeRemoveSnapshot(n))
    requires Removes(a.agent.id, g.locals[n].task) ==> !HoldsEntry(g.raft.nodes[n].log, a)
    ensures AfterGroup(g, TakeRemoveSnapshot(n)) == ProposeAnd(g, n, op, l.agents, l)
    ensures Follows(a, g.grid, g.raft.nodes[n], g.locals[n], op, l)
  {
    op, l := DropThese(g.locals[n].task.ids), RemoveSnapshot(g.raft.nodes[n], g.locals[n]).1;
  }

  lemma RemovedKeeps(a: Acceptance, g: Group, n: NodeId)
    requires Invariant(g.raft) && GroupKeeps(a, g) && CanStep(g, TakeRemoveSnapshot(n))
    ensures GroupKeeps(a, AfterGroup(g, TakeRemoveSnapshot(n)))
  {
    TheyMayGoOn(g, n);
    GoesOn(a, g, n);
    var op, l := RemoveIsProposal(a, g, n);
    ProposalKeeps(a, g, n, op, l);
  }

  lemma TickIsProposal(a: Acceptance, g: Group, n: NodeId) returns (l: Local)
    requires CanStep(g, TakeTickSnapshot(n)) && CaughtUp(g.raft.nodes[n])
    ensures AfterGroup(g, TakeTickSnapshot(n)) == ProposeAnd(g, n, MoveAll, l.agents, l)
    ensures Follows(a, g.grid, g.raft.nodes[n], g.locals[n], MoveAll, l)
  {
    l := TickSnapshot(g.raft.nodes[n], g.locals[n], g.grid).1;
  }

  lemma TickedKeeps(a: Acceptance, g: Group, n: NodeId)
    requires Able(a, g, n) && CanStep(g, TakeTickSnapshot(n))
    ensures GroupKeeps(a, AfterGroup(g, TakeTickSnapshot(n)))
  {
    var l := TickIsProposal(a, g, n);
    ProposalKeeps(a, g, n, MoveAll, l);
  }

  lemma SnapshotKeeps(a: Acceptance, g: Group, step: GroupStep)
    requires GroupInvariant(g) && GroupKeeps(a, g) && CanStep(g, step)
    requires step.TakeAddSnapshot? || step.TakeRemoveSnapshot? || (step.TakeTickSnapshot? && CaughtUp(g.raft.nodes[step.n]))
    ensures GroupKeeps(a, AfterGroup(g, step))
  {
    if step.TakeAddSnapshot? {
      AddedKeeps(a, g, step.n);
    } else if step.TakeRemoveSnapshot? {
      RemovedKeeps(a, g, step.n);
    } else {
      TickedKeeps(a, g, step.n);
    }
  }

  /** The step spares the agent: a leader whose log has its entry does not begin to remove it,
      and a roll-back where the entry is applied is harmless. */
  ghost predicate SparesIn(a: Acceptance, g: Group, step: GroupStep)
    requires CanStep(g, step)
  {
    var s, l := g.raft.nodes[Who(step)], g.locals[Who(step)];
    && (step.StartRemove? && s.role == Leader && HoldsEntry(s.log, a) ==> a.agent.id !in step.ids)
    && (step.TakeBack? && Applied(a, s) ==> Harmless(a.agent.id, s, l))
  }

  /** Every step that spares the agent keeps it. */
  lemma StepKeepsName(a: Acceptance, g: Group, step: GroupStep)
    requires GroupInvariant(g) && GroupKeeps(a, g) && CanStep(g, step) && SparesIn(a, g, step)
    ensures GroupKeeps(a, AfterGroup(g, step))
  {
    if step.RaftStep? {
      RaftStepOfGroup(a, g, step.step);
    } else if step.StartAdd? {
      StartAddKeeps(a, g, step.n, step.agent);
    } else if step.StartRemove? {
      StartRemoveKeeps(a, g, step.n, step.ids);
    } else if step.TakeBack? {
      TakeBackKeeps(a, g, step.n);
    } else if step.TakeAddSnapshot? || step.TakeRemoveSnapshot? || (step.TakeTickSnapshot? && CaughtUp(g.raft.nodes[step.n])) {
      SnapshotKeeps(a, g, step);
    } else {
      FinishKeeps(a, g, step);
    }
  }

  // ---------- over runs ----------

  /** The move into position `k` rolls back an `add_agent` at `n`. */
  ghost predicate TakesBackAt(run: seq<Group>, k: int, n: NodeId)
    requires 0 < k < |run|
  {
    CanStep(run[k - 1], TakeBack(n)) && run[k] == AfterGroup(run[k - 1], TakeBack(n))
  }

  /** The move into position `k` begins to remove `x` at `n`. */
  ghost predicate BeginsRemovalAt(x: AgentId, run: seq<Group>, k: int, n: NodeId)
    requires 0 < k < |run|
  {
    && n in run[k - 1].locals && n in run[k].locals
    && run[k - 1].locals[n].task.Free? && Removes(x, run[k].locals[n].task)
  }

  /** In all of the run, no replica whose log has the agent's entry begins to remove the agent,
      and every roll-back where the entry is applied is harmless. What happens to the name
      before its entry is proposed, or away from it, does not matter. */
  ghost predicate Spares(a: Acceptance, run: seq<Group>) {
    && (forall k, n {:trigger BeginsRemovalAt(a.agent.id, run, k, n)} | 0 < k < |run| && BeginsRemovalAt(a.agent.id, run, k, n) ::
          n in run[k - 1].raft.nodes ==> !HoldsEntry(run[k - 1].raft.nodes[n].log, a))
    && (forall k, n {:trigger TakesBackAt(run, k, n)} | 0 < k < |run| && TakesBackAt(run, k, n) ::
          n in run[k - 1].raft.nodes && n in run[k - 1].locals
          && (Applied(a, run[k - 1].raft.nodes[n]) ==> Harmless(a.agent.id, run[k - 1].raft.nodes[n], run[k - 1].locals[n])))
  }

  lemma FreshKeeps(a: Acceptance, g: Group)
    requires InitialGroup(g)
    ensures GroupKeeps(a, g)
  {
    assert g.raft.history.reigns == map[0 := Reign(NOBODY, {}, [], [SENTINEL])];
    forall n | n in g.locals ensures ReplicaKeeps(a, g, n) {
      assert g.raft.nodes[n] == RS.NewNode(n, g.raft.nodes[n].peers);
    }
  }

  lemma NameIsKept(a: Acceptance, run: seq<Group>, k: nat)
    requires GroupRun(run) && k < |run| && Spares(a, run)
    ensures GroupKeeps(a, run[k])
  {
    var move, keeps := (g, g') => SparedMove(a, g, g'), g => GroupKeeps(a, g);
    FreshKeeps(a, run[0]);
    forall j | 0 < j < |run| ensures MoveAt(move, run, j) {
      MomentSpares(a, run, j);
    }
    forall g, g' | keeps(g) && move(g, g') ensures keeps(g') {
      SparedMoveKeeps(a, g, g');
    }
    AlongWay(move, run, keeps, k);
    assert keeps(run[k]);
  }

  /** A move in a good state that spares the agent. */
  ghost predicate SparedMove(a: Acceptance, g: Group, g': Group) {
    GroupInvariant(g) && exists step :: CanStep(g, step) && g' == AfterGroup(g, step) && SparesIn(a, g, step)
  }

  lemma SparedMoveKeeps(a: Acceptance, g: Group, g': Group)
    requires GroupKeeps(a, g) && SparedMove(a, g, g')
    ensures GroupKeeps(a, g')
  {
    var step :| CanStep(g, step) && g' == AfterGroup(g, step) && SparesIn(a, g, step);
    StepKeepsName(a, g, step);
  }

  lemma MomentSpares(a: Acceptance, run: seq<Group>, k: nat)
    requires GroupRun(run) && 0 < k < |run| && Spares(a, run)
    ensures SparedMove(a, run[k - 1], run[k])
  {
    GroupRunInvariant(run, k - 1);
    var step := SparingStep(a, run, k);
  }

  lemma SparingStep(a: Acceptance, run: seq<Group>, k: nat) returns (step: GroupStep)
    requires GroupRun(run) && 0 < k < |run| && Spares(a, run)
    ensures CanStep(run[k - 1], step) && run[k] == AfterGroup(run[k - 1], step) && SparesIn(a, run[k - 1], step)
  {
    assert GroupStepAt(run, k);
    step :| CanStep(run[k - 1], step) && run[k] == AfterGroup(run[k - 1], step);
    if step.TakeBack? {
      assert TakesBackAt(run, k, step.n);
    }
    if step.StartRemove? && a.agent.id in step.ids && run[k - 1].raft.nodes[step.n].role == Leader {
      assert BeginsRemovalAt(a.agent.id, run, k, step.n);
    }
  }

  lemma InLogInReign(h: History, log: Log, i: nat)
    requires FromLeaders(h, log) && i < |log|
    ensures i < |ReignLog(h, log[i].term)|
  {
    assert Rooted(h, log, i);
  }

  /** As long as the accepted entry is not proposed, no log has it, so nothing counts against it. */
  lemma NotBeforeItIsProposed(run: seq<Group>, k: nat, a: Acceptance, n: NodeId)
    requires GroupRun(run) && k < |run| && n in run[k].raft.nodes
    requires var h := run[k].raft.history; a.term !in h.reigns || |ReignLog(h, a.term)| <= a.index
    ensures !HoldsEntry(run[k].raft.nodes[n].log, a)
  {
    GroupRunInvariant(run, k);
    KnownOf(run[k].raft, n);
    if a.index < |run[k].raft.nodes[n].log| {
      InLogInReign(run[k].raft.history, run[k].raft.nodes[n].log, a.index);
    }
  }

  /** An accepted agent is never lost, in every run that spares it: every log that holds its
      entry lists it from there to the end, and these are the logs of all later leaders and of
      all that committed so far. */
  lemma AcceptedAgentStays(run: seq<Group>, j: nat, a: Acceptance, k: nat, b: NodeId, i: nat)
    requires GroupRun(run) && j <= k < |run| && a in run[j].accepted && b in run[k].raft.nodes
    requires Spares(a, run)
    requires var s := run[k].raft.nodes[b];
             && a.index <= i < |s.log|
             && (HoldsEntry(s.log, a) || (s.role == Leader && s.currentTerm >= a.term) || s.commitIndex >= a.index)
    ensures a.agent.id in Replay(run[k].raft.nodes[b].log, i)
  {
    if !HoldsEntry(run[k].raft.nodes[b].log, a) {
      AcceptedIsDurable(run, j, a, k, b);
    }
    NameIsKept(a, run, k);
    GroupRunInvariant(run, k);
    ListedFrom(a, run[k], b, i);
  }

  lemma ListedFrom(a: Acceptance, g: Group, b: NodeId, i: nat)
    requires Invariant(g.raft) && ReignsKeep(a, g.raft.history) && b in g.raft.nodes
    requires a.index <= i < |g.raft.nodes[b].log| && HoldsEntry(g.raft.nodes[b].log, a)
    ensures a.agent.id in Replay(g.raft.nodes[b].log, i)
  {
    KnownOf(g.raft, b);
    FromLeadersKeeps(a, g.raft.history, g.raft.nodes[b].log);
    assert ListsAt(a.agent.id, g.raft.nodes[b].log, i);
  }
}
