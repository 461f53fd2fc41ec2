/** What a shard promises over its Raft group: an accepted agent is durable, and
    a leader's snapshots each change what the log says by one operation. */
module ShardSafety {
  import opened World
  import opened RaftTypes
  import RS = RaftSpec
  import opened RaftCluster
  import opened RaftInvariant
  import opened RaftFrames
  import opened RaftCompleteness
  import opened RaftPreservation
  import opened RaftSafety
  import opened ShardSpec
  import opened ShardGroup

  // ---------- accepted means durable ----------

  /** The entry is the snapshot with which `agent` was added. */
  ghost predicate Adds(e: Entry, agent: Agent, index: nat, term: nat) {
    && e.term == term && e.index == index && e.command.Snapshot?
    && agent.id in e.command.agents && e.command.agents[agent.id] == agent
  }

  ghost predicate Proposed(h: History, n: NodeId, agent: Agent, index: nat, term: nat) {
    && term in h.reigns && h.reigns[term].leader == n
    && index < |ReignLog(h, term)|
    && Adds(ReignLog(h, term)[index], agent, index, term)
  }

  ghost predicate TaskOk(h: History, n: NodeId, l: Local) {
    l.task.Adding? ==> Proposed(h, n, l.task.agent, l.task.index, l.task.term)
  }

  ghost predicate AcceptedOk(h: History, a: Acceptance) {
    && Proposed(h, a.node, a.agent, a.index, a.term)
    && CommittedUpTo(h, a.term, ReignLog(h, a.term), a.index)
  }

  ghost predicate GroupInvariant(g: Group) {
    && Invariant(g.raft)
    && g.locals.Keys == g.raft.nodes.Keys
    && (forall n | n in g.locals :: TaskOk(g.raft.history, n, g.locals[n]))
    && (forall a | a in g.accepted :: AcceptedOk(g.raft.history, a))
  }

  lemma ProposedGrows(h: History, h': History, n: NodeId, agent: Agent, index: nat, term: nat)
    requires Proposed(h, n, agent, index, term) && Continues(h, h')
    ensures Proposed(h', n, agent, index, term)
  {
    assert ReignExtends(h.reigns[term], h'.reigns[term]);
  }

  lemma AcceptedGrows(h: History, h': History, a: Acceptance)
    requires AcceptedOk(h, a) && Continues(h, h')
    ensures AcceptedOk(h', a)
  {
    ProposedGrows(h, h', a.node, a.agent, a.index, a.term);
    CommittedGrows(h, h', a.term, a.term, ReignLog(h, a.term), a.index);
    ReignLogGrows(h, h', a.term);
    AgreeShorter(ReignLog(h, a.term), ReignLog(h', a.term), |ReignLog(h, a.term)|, a.index + 1);
    CommittedAlong(h', a.term, ReignLog(h, a.term), ReignLog(h', a.term), a.index);
  }

  /** A leader that proposes has its entry in its reign's log. */
  lemma ProposalInReign(c: Cluster, n: NodeId, agents: Agents, agent: Agent)
    requires Invariant(c) && n in c.nodes && c.nodes[n].role == Leader && Defined(c, ProposeCommand(n, Snapshot(agents)))
    requires agent.id in agents && agents[agent.id] == agent
    ensures Proposed(AfterPropose(c, n, Snapshot(agents)).history, n, agent, |c.nodes[n].log|, c.nodes[n].currentTerm)
  {
    assert NodeOk(c.history, c.nodes.Keys, c.nodes[n]);
  }

  /** What a leader has applied of its own term's log is committed. */
  lemma AppliedIsCommitted(c: Cluster, n: NodeId, index: nat)
    requires Invariant(c) && n in c.nodes && c.nodes[n].role == Leader && index <= c.nodes[n].lastApplied
    ensures var h, t := c.history, c.nodes[n].currentTerm;
            index < |ReignLog(h, t)| && CommittedUpTo(h, t, ReignLog(h, t), index)
  {
    var h, s := c.history, c.nodes[n];
    assert NodeOk(h, c.nodes.Keys, s);
    var t0: nat, i: nat :| (t0, i) in h.commits && t0 <= s.currentTerm && s.commitIndex <= i
                           && Agree(ReignLog(h, t0), s.log, s.commitIndex + 1);
    assert index <= i && Agree(ReignLog(h, t0), s.log, index + 1);
  }

  /** What a step of node `n` does to tasks and answers, whatever the rest. */
  ghost predicate Effect(g: Group, g': Group, n: NodeId) {
    && n in g.locals && n in g'.locals && n in g.raft.nodes
    && g'.locals == g.locals[n := g'.locals[n]]
    && TaskEffect(g, g', n, g.locals[n].task, g'.locals[n].task)
    && (g'.accepted == g.accepted || AcceptEffect(g, g', n, g.locals[n].task))
  }

  ghost predicate TaskEffect(g: Group, g': Group, n: NodeId, task: Task, task': Task)
    requires n in g.locals && n in g.raft.nodes
  {
    var s := g.raft.nodes[n];
    task'.Adding? && task' != task ==>
      && task.WaitToAdd? && s.role == Leader && Defined(g.raft, ProposeCommand(n, NoOp))
      && g'.raft == AfterPropose(g.raft, n, Snapshot(Put(g.locals[n].agents, task.agent)))
      && task' == Adding(task.agent, g.locals[n].agents, |s.log|, s.currentTerm)
  }

  ghost predicate AcceptEffect(g: Group, g': Group, n: NodeId, task: Task)
    requires n in g.raft.nodes
  {
    && task.Adding? && PollApplied(g.raft.nodes[n], task.index, task.term) == Ready
    && g'.raft == g.raft
    && g'.accepted == g.accepted + {Acceptance(n, task.agent, task.index, task.term)}
  }

  lemma StepEffect(g: Group, step: GroupStep)
    requires CanStep(g, step)
    ensures Effect(g, AfterGroup(g, step), Who(step))
  {}

  lemma GroupStepKeeps(g: Group, step: GroupStep)
    requires GroupInvariant(g) && CanStep(g, step)
    ensures GroupInvariant(AfterGroup(g, step))
  {
    StepIsRaftStep(g, step);
    StepEffect(g, step);
    EffectKeeps(g, AfterGroup(g, step), Who(step));
  }

  lemma GroupNextKeeps(g: Group, g': Group)
    requires GroupInvariant(g) && GroupNext(g, g')
    ensures GroupInvariant(g')
  {
    var step :| CanStep(g, step) && g' == AfterGroup(g, step);
    GroupStepKeeps(g, step);
  }

  lemma EffectKeeps(g: Group, g': Group, n: NodeId)
    requires GroupInvariant(g) && Effect(g, g', n) && Next(g.raft, g'.raft)
    ensures GroupInvariant(g')
  {
    RaftKept(g.raft, g'.raft);
    NotesKept(g, g', n);
  }

  lemma RaftKept(c: Cluster, c': Cluster)
    requires Invariant(c) && Next(c, c')
    ensures Invariant(c') && Continues(c.history, c'.history) && c'.nodes.Keys == c.nodes.Keys
  {
    NextKeepsInvariant(c, c');
    KeysStay(c, c');
  }

  lemma NotesKept(g: Group, g': Group, n: NodeId)
    requires GroupInvariant(g) && Effect(g, g', n) && Continues(g.raft.history, g'.raft.history)
    ensures forall m | m in g'.locals :: TaskOk(g'.raft.history, m, g'.locals[m])
    ensures forall a | a in g'.accepted :: AcceptedOk(g'.raft.history, a)
    ensures g'.locals.Keys == g.locals.Keys
  {
    LocalsKept(g, g', n);
    AcceptancesKept(g, g', n);
  }

  lemma KeysStay(c: Cluster, c': Cluster)
    requires Invariant(c) && Next(c, c')
    ensures c'.nodes.Keys == c.nodes.Keys
  {
    NextIsLater(c, c');
  }

  lemma AcceptancesKept(g: Group, g': Group, n: NodeId)
    requires GroupInvariant(g) && Effect(g, g', n) && Continues(g.raft.history, g'.raft.history)
    ensures forall a | a in g'.accepted :: AcceptedOk(g'.raft.history, a)
  {
    forall a | a in g'.accepted
      ensures AcceptedOk(g'.raft.history, a)
    {
      if a in g.accepted {
        AcceptedGrows(g.raft.history, g'.raft.history, a);
      } else {
        assert TaskOk(g.raft.history, n, g.locals[n]);
        AppliedIsCommitted(g.raft, n, a.index);
      }
    }
  }

  lemma NewTaskOk(g: Group, g': Group, n: NodeId)
    requires Invariant(g.raft) && n in g.locals && n in g.raft.nodes && n in g'.locals
    requires TaskEffect(g, g', n, g.locals[n].task, g'.locals[n].task)
    requires g'.locals[n].task.Adding? && g'.locals[n].task != g.locals[n].task
    ensures TaskOk(g'.raft.history, n, g'.locals[n])
  {
    var agent := g.locals[n].task.agent;
    ProposalInReign(g.raft, n, Put(g.locals[n].agents, agent), agent);
  }

  lemma LocalsKept(g: Group, g': Group, n: NodeId)
    requires GroupInvariant(g) && Effect(g, g', n) && Continues(g.raft.history, g'.raft.history)
    ensures forall m | m in g'.locals :: TaskOk(g'.raft.history, m, g'.locals[m])
  {
    var h, h' := g.raft.history, g'.raft.history;
    forall m | m in g'.locals
      ensures TaskOk(h', m, g'.locals[m])
    {
      var task := g'.locals[m].task;
      if task.Adding? {
        if g.locals[m].task == task {
          assert TaskOk(h, m, g.locals[m]);
          ProposedGrows(h, h', m, task.agent, task.index, task.term);
        } else {
          NewTaskOk(g, g', n);
        }
      }
    }
  }

  lemma {:induction false} GroupRunInvariant(run: seq<Group>, k: nat)
    requires GroupRun(run) && k < |run|
    ensures GroupInvariant(run[k])
  {
    if k == 0 {
      InitialOk(run[0].raft);
    } else {
      GroupRunInvariant(run, k - 1);
      assert GroupStepAt(run, k);
      GroupNextKeeps(run[k - 1], run[k]);
    }
  }

  /** Accepted means durable: once `add_agent` has answered True, the very entry
      it proposed is in the log of every leader of a later term, at the same
      index, and in that of every node that ever counts the index as committed. */
  lemma AcceptedIsDurable(run: seq<Group>, j: nat, a: Acceptance, k: nat, b: NodeId)
    requires GroupRun(run) && j <= k < |run| && a in run[j].accepted && b in run[k].raft.nodes
    requires var s := run[k].raft.nodes[b];
             (s.role == Leader && s.currentTerm >= a.term) || s.commitIndex >= a.index
    ensures var s := run[k].raft.nodes[b];
            a.index < |s.log| && Adds(s.log[a.index], a.agent, a.index, a.term)
  {
    StaysAccepted(run, j, a, k);
    GroupRunInvariant(run, k);
    var h, ids, s := run[k].raft.history, run[k].raft.nodes.Keys, run[k].raft.nodes[b];
    assert AcceptedOk(h, a) && NodeOk(h, ids, s);
    var written := ReignLog(h, a.term);
    if s.role == Leader && s.currentTerm >= a.term {
      CommittedInLeaderLog(h, ids, a.term, written, a.index, s.currentTerm);
    } else {
      CommittedPrefixesAgree(h, ids, a.term, written, a.index, s.currentTerm, s.log, s.commitIndex);
    }
    assert written[a.index] == s.log[a.index];
  }

  lemma {:induction false} StaysAccepted(run: seq<Group>, j: nat, a: Acceptance, k: nat)
    requires GroupRun(run) && j <= k < |run| && a in run[j].accepted
    ensures a in run[k].accepted
    decreases k
  {
    if j < k {
      StaysAccepted(run, j, a, k - 1);
      assert GroupStepAt(run, k);
    }
  }
}
