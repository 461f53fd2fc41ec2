/** One uninterrupted leadership of a shard replica: the lock and the caught-up
    gate make every snapshot it proposes one operation on what the log says. */
module ShardLeadership {
  import opened World
  import opened RaftTypes
  import RS = RaftSpec
  import opened RaftCluster
  import opened RaftInvariant
  import opened RaftPreservation
  import opened RaftSafety
  import opened ShardSpec
  import opened ShardGroup
  import opened ShardSafety

  /** The request that was carried out at this place of the log. */
  ghost predicate CarriedOut(g: Group, n: NodeId, term: nat, i: nat, r: Request) {
    && (n, term, i) in g.origins && g.origins[(n, term, i)] < |g.asked|
    && g.asked[g.origins[(n, term, i)]] == r
  }

  /** Entry `i` of the log of node `n` is a snapshot of what the log in front of it says,
      changed by the one operation that was carried out there, which had begun at `n`. */
  ghost predicate FaithfulAt(g: Group, n: NodeId, log: Log, i: int)
    requires 0 <= i < |log|
  {
    && i > 0 && log[i].command.Snapshot?
    && exists op :: CarriedOut(g, n, log[i].term, i, Request(n, op))
                    && log[i].command.agents == Perform(g.grid, op, Replay(log, i - 1))
  }

  ghost predicate FaithfulFrom(g: Group, n: NodeId, log: Log, start: nat) {
    forall i {:trigger FaithfulAt(g, n, log, i)} | start <= i < |log| :: FaithfulAt(g, n, log, i)
  }

  /** `op` is due at replica `n`. */
  predicate IsDue(g: Group, n: NodeId, op: Operation) {
    var key := (n, op.MoveAll?);
    key in g.due && g.due[key] < |g.asked| && g.asked[g.due[key]] == Request(n, op)
  }

  /** What the replica is about to do had begun there. */
  predicate TaskAsked(g: Group, n: NodeId, l: Local) {
    && (l.ticking ==> IsDue(g, n, MoveAll))
    && (l.task.WaitToAdd? ==> IsDue(g, n, PutOne(l.task.agent)))
    && (l.task.WaitToRemove? ==> IsDue(g, n, DropThese(l.task.ids)))
  }

  ghost predicate AllAsked(g: Group) {
    forall n | n in g.locals :: TaskAsked(g, n, g.locals[n])
  }

  /** No request was carried out twice, and none that was is still due. */
  ghost predicate EachOnce(g: Group) {
    && (forall k | k in g.due :: g.due[k] < |g.asked|)
    && (forall k | k in g.origins :: g.origins[k] < |g.asked|)
    && (forall k, k' | k in g.due && k' in g.due && k != k' :: g.due[k] != g.due[k'])
    && (forall k, k' | k in g.origins && k' in g.origins && k != k' :: g.origins[k] != g.origins[k'])
    && (forall k, k' | k in g.due && k' in g.origins :: g.due[k] != g.origins[k'])
  }

  ghost predicate Booked(g: Group) {
    AllAsked(g) && EachOnce(g)
  }

  /** The registry is what was applied, or already what was proposed. */
  ghost predicate RegistryOk(s: NodeState, l: Local)
    requires s.lastApplied < |s.log|
  {
    l.agents == Replay(s.log, s.lastApplied) || l.agents == Replay(s.log, |s.log| - 1)
  }

  /** Whoever holds the lock started in this term, and nothing was appended since. */
  ghost predicate HolderOk(s: NodeState, l: Local)
    requires s.lastApplied < |s.log|
  {
    match l.task
    case Free => true
    case WaitToAdd(_, index, term) => term == s.currentTerm && index == |s.log| - 1
    case WaitToRemove(_, index, term) => term == s.currentTerm && index == |s.log| - 1
    case Adding(_, before, index, term) =>
      && term == s.currentTerm && index == |s.log| - 1 && 1 <= index <= s.lastApplied + 1
      && before == Replay(s.log, index - 1)
      && l.agents == Replay(s.log, index)
  }

  /** Replica `n` leads `term`, holds a good registry, and what it appended from `start` on is faithful. */
  ghost predicate Leads(g: Group, n: NodeId, term: nat, start: nat) {
    && n in g.raft.nodes && n in g.locals
    && Rules(g.raft.nodes[n], g.locals[n], term, start)
    && FaithfulFrom(g, n, g.raft.nodes[n].log, start)
  }

  ghost predicate Rules(s: NodeState, l: Local, term: nat, start: nat) {
    && s.role == Leader && s.currentTerm == term
    && 0 < start <= |s.log| && s.lastApplied < |s.log|
    && RegistryOk(s, l) && HolderOk(s, l)
  }

  // ---------- the log grows by a faithful snapshot ----------

  /** Faithful entries stay so while the observer only adds to its notes. */
  lemma FaithfulKept(g: Group, g': Group, n: NodeId, log: Log, start: nat)
    requires FaithfulFrom(g, n, log, start) && g'.grid == g.grid && g.asked <= g'.asked
    requires forall t, i | (n, t, i) in g.origins && i < |log| ::
               (n, t, i) in g'.origins && g'.origins[(n, t, i)] == g.origins[(n, t, i)]
    ensures FaithfulFrom(g', n, log, start)
  {
    forall i | start <= i < |log| ensures FaithfulAt(g', n, log, i) {
      assert FaithfulAt(g, n, log, i);
      var op :| CarriedOut(g, n, log[i].term, i, Request(n, op))
                && log[i].command.agents == Perform(g.grid, op, Replay(log, i - 1));
      assert CarriedOut(g', n, log[i].term, i, Request(n, op));
    }
  }

  lemma ProposedLog(log: Log, term: nat, agents: Agents)
    requires |log| > 0
    ensures var log' := log + [Entry(term, |log|, Snapshot(agents))];
            && Replay(log', |log|) == agents
            && forall k: nat | k < |log| :: Replay(log', k) == Replay(log, k)
  {
    var log' := log + [Entry(term, |log|, Snapshot(agents))];
    forall k: nat | k < |log| ensures Replay(log', k) == Replay(log, k) {
      ReplayPrefix(log', log, k);
    }
  }

  lemma FaithfulLonger(g: Group, n: NodeId, log: Log, term: nat, op: Operation, agents: Agents, start: nat)
    requires |log| > 0 && 0 < start <= |log| && FaithfulFrom(g, n, log, start)
    requires CarriedOut(g, n, term, |log|, Request(n, op)) && agents == Perform(g.grid, op, Replay(log, |log| - 1))
    ensures FaithfulFrom(g, n, log + [Entry(term, |log|, Snapshot(agents))], start)
  {
    var log' := log + [Entry(term, |log|, Snapshot(agents))];
    ProposedLog(log, term, agents);
    forall i | start <= i < |log'| ensures FaithfulAt(g, n, log', i) {
      if i < |log| {
        assert FaithfulAt(g, n, log, i);
        var earlier :| CarriedOut(g, n, log[i].term, i, Request(n, earlier))
                       && log[i].command.agents == Perform(g.grid, earlier, Replay(log, i - 1));
        assert CarriedOut(g, n, log'[i].term, i, Request(n, earlier));
      } else {
        assert CarriedOut(g, n, log'[i].term, i, Request(n, op));
      }
    }
  }

  lemma ProposeRules(s: NodeState, l: Local, agents: Agents, l': Local, term: nat, start: nat)
    requires Rules(s, l, term, start) && CaughtUp(s) && l'.agents == agents
    requires l'.task == Free || exists agent :: l'.task == Adding(agent, l.agents, |s.log|, term)
    ensures Rules(RS.Propose(s, Snapshot(agents)), l', term, start)
    ensures l.agents == Replay(s.log, |s.log| - 1)
  {
    ProposedLog(s.log, term, agents);
  }

  /** A caught-up leader that carries out `op` on its registry appends a faithful snapshot. */
  lemma ProposeLeads(g: Group, n: NodeId, op: Operation, l': Local, term: nat, start: nat)
    requires Present(g, n) && Leads(g, n, term, start) && CaughtUp(g.raft.nodes[n]) && IsDue(g, n, op)
    requires var l := g.locals[n];
             && l'.agents == Perform(g.grid, op, l.agents)
             && (l'.task == Free || exists agent :: l'.task == Adding(agent, l.agents, |g.raft.nodes[n].log|, term))
    ensures Leads(ProposeAnd(g, n, op, l'.agents, l'), n, term, start)
  {
    var s, g' := g.raft.nodes[n], ProposeAnd(g, n, op, l'.agents, l');
    ProposeRules(s, g.locals[n], l'.agents, l', term, start);
    FaithfulKept(g, g', n, s.log, start);
    FaithfulLonger(g', n, s.log, term, op, l'.agents, start);
  }

  // ---------- Raft goes on underneath ----------

  /** What another step can do to a leader that stays one: deliver, and nothing else. */
  ghost predicate OnlyDelivers(s: NodeState, s': NodeState) {
    && s'.role == Leader && s'.currentTerm == s.currentTerm
    && s'.log == s.log && s.lastApplied <= s'.lastApplied < |s.log|
  }

  lemma DeliveryRules(s: NodeState, s': NodeState, l: Local, term: nat, start: nat)
    requires Rules(s, l, term, start) && OnlyDelivers(s, s')
    ensures Rules(s', l.(agents := ApplyRange(l.agents, s.log, s.lastApplied, s'.lastApplied)), term, start)
  {
    var full := Replay(s.log, |s.log| - 1);
    ReplayOnwards(s.log, s.lastApplied, s'.lastApplied);
    ApplyRangeForgets(l.agents, Replay(s.log, s.lastApplied), s.log, s.lastApplied, s'.lastApplied);
    if l.task.Adding? {
      LastStretch(s.log, s.lastApplied, s'.lastApplied, full);
    }
  }

  /** With at most the last entry outstanding, applying onwards ends at what the log says. */
  lemma LastStretch(log: Log, lo: nat, hi: nat, agents: Agents)
    requires lo <= hi < |log| && |log| - 2 <= lo
    requires agents == Replay(log, |log| - 1)
    ensures ApplyRange(agents, log, lo, hi) == agents
  {
    if lo < hi {
      assert hi == |log| - 1 && ApplyRange(agents, log, lo, lo) == agents;
    }
  }

  lemma ServedAppendDeposes(s: NodeState, args: AppendEntriesArgs)
    requires |s.log| > 0
    ensures var s' := RS.HandleAppendEntries(s, args).0;
            s'.role == Leader && s'.currentTerm == s.currentTerm ==> s' == s
  {}

  lemma VoteReplyKeepsLeader(s: NodeState, term: nat, reply: RequestVoteReply)
    requires s.role == Leader
    ensures var s' := RS.ReceiveVoteReply(s, term, reply);
            s'.log == s.log && s'.lastApplied == s.lastApplied
  {}

  lemma AppendReplyKeepsLog(s: NodeState, p: NodeId, args: AppendEntriesArgs, reply: AppendEntriesReply)
    requires |s.log| > 0 && (s.role == Leader ==> RS.CanReplicate(s, p))
    ensures var s' := RS.ReceiveAppendReply(s, p, args, reply);
            s'.log == s.log && s'.lastApplied == s.lastApplied
  {}

  /** A step other than a proposal leaves a node that leads before and after it its log. */
  lemma LeaderUndisturbed(c: Cluster, step: Step, n: NodeId)
    requires Possible(c, step) && Defined(c, step) && !step.ProposeCommand?
    requires n in c.nodes && c.nodes[n].role == Leader
    requires n in After(c, step).nodes
    requires After(c, step).nodes[n].role == Leader && After(c, step).nodes[n].currentTerm == c.nodes[n].currentTerm
    ensures After(c, step).nodes[n].log == c.nodes[n].log
    ensures After(c, step).nodes[n].lastApplied ==
            if step == ApplyCommitted(n) && c.nodes[n].lastApplied < c.nodes[n].commitIndex then c.nodes[n].commitIndex else c.nodes[n].lastApplied
  {
    var s := c.nodes[Actor(step)];
    match step
    case ServeVote(call) =>
    case GetVoteReply(call, reply) => if call.src == n { VoteReplyKeepsLeader(s, call.args.term, reply); }
    case ServeAppend(call) => ServedAppendDeposes(s, call.args);
    case GetAppendReply(call, reply) => AppendReplyKeepsLog(s, call.dst, call.args, reply);
    case _ =>
  }

  lemma RaftStepLeads(g: Group, step: Step, n: NodeId, term: nat, start: nat)
    requires CanStep(g, RaftStep(step)) && Leads(g, n, term, start)
    requires g.raft.nodes[n].lastApplied <= g.raft.nodes[n].commitIndex
    requires var c' := After(g.raft, step); n in c'.nodes && c'.nodes[n].role == Leader && c'.nodes[n].currentTerm == term
    ensures Leads(AfterGroup(g, RaftStep(step)), n, term, start)
  {
    var s, s' := g.raft.nodes[n], After(g.raft, step).nodes[n];
    LeaderUndisturbed(g.raft, step, n);
    DeliveryRules(s, s', g.locals[n], term, start);
    FaithfulKept(g, AfterGroup(g, RaftStep(step)), n, s.log, start);
  }

  // ---------- the replica's own steps ----------

  lemma OwnStepLeads(g: Group, step: GroupStep, term: nat, start: nat)
    requires CanStep(g, step) && !step.RaftStep? && AllAsked(g) && Leads(g, Who(step), term, start)
    ensures Leads(AfterGroup(g, step), Who(step), term, start)
  {
    var n := Who(step);
    var s, l := g.raft.nodes[n], g.locals[n];
    if step.TakeAddSnapshot? {
      ProposeLeads(g, n, PutOne(l.task.agent), AddSnapshot(s, l).1, term, start);
    } else if step.TakeTickSnapshot? && CaughtUp(s) {
      ProposeLeads(g, n, MoveAll, TickSnapshot(s, l, g.grid).1, term, start);
    } else if step.TakeRemoveSnapshot? {
      ProposeLeads(g, n, DropThese(l.task.ids), RemoveSnapshot(s, l).1, term, start);
    } else {
      FaithfulKept(g, AfterGroup(g, step), n, s.log, start);
    }
  }

  /** Steps of other replicas do not reach this one. */
  lemma OtherStepLeads(g: Group, step: GroupStep, n: NodeId, term: nat, start: nat)
    requires CanStep(g, step) && !step.RaftStep? && Who(step) != n && Leads(g, n, term, start)
    ensures Leads(AfterGroup(g, step), n, term, start)
  {
    FaithfulKept(g, AfterGroup(g, step), n, g.raft.nodes[n].log, start);
  }

  // ---------- what was asked ----------

  predicate Waits(task: Task) {
    task.WaitToAdd? || task.WaitToRemove?
  }

  /** The three things a step can do to the books: write down a request of replica `n`,
      cross one out, or leave them alone. */
  ghost predicate Records(g: Group, g': Group, n: NodeId, op: Operation, l: Local, l': Local) {
    && g'.asked == g.asked + [Request(n, op)]
    && g'.due == g.due[(n, op.MoveAll?) := |g.asked|] && g'.origins == g.origins
    && (if op.MoveAll? then l'.task == l.task
        else l'.ticking == l.ticking && (l'.task.WaitToAdd? ==> op == PutOne(l'.task.agent))
             && (l'.task.WaitToRemove? ==> op == DropThese(l'.task.ids)))
  }

  ghost predicate CrossesOut(g: Group, g': Group, n: NodeId, op: Operation, l: Local, l': Local) {
    && g'.asked == g.asked && g'.due == g.due - {(n, op.MoveAll?)}
    && (g'.origins == g.origins || exists key :: CarriedOutAt(g, g', n, op, key))
    && (if op.MoveAll? then l'.task == l.task && !l'.ticking else l'.ticking == l.ticking && !Waits(l'.task))
  }

  ghost predicate CarriedOutAt(g: Group, g': Group, n: NodeId, op: Operation, key: (NodeId, nat, nat)) {
    (n, op.MoveAll?) in g.due && g'.origins == g.origins[key := g.due[(n, op.MoveAll?)]]
  }

  ghost predicate LeavesBooks(g: Group, g': Group, l: Local, l': Local) {
    && g'.asked == g.asked && g'.due == g.due && g'.origins == g.origins
    && (l'.ticking ==> l.ticking) && (Waits(l'.task) ==> l'.task == l.task)
  }

  ghost predicate Books(g: Group, g': Group, n: NodeId, op: Operation) {
    && n in g.locals && n in g'.locals && g'.locals == g.locals[n := g'.locals[n]]
    && var l, l' := g.locals[n], g'.locals[n];
       Records(g, g', n, op, l, l') || CrossesOut(g, g', n, op, l, l') || LeavesBooks(g, g', l, l')
  }

  lemma ProposalBooks(g: Group, n: NodeId, op: Operation, agents: Agents, l': Local)
    requires Present(g, n)
    requires if op.MoveAll? then l'.task == g.locals[n].task && !l'.ticking
             else l'.ticking == g.locals[n].ticking && !Waits(l'.task)
    ensures Books(g, ProposeAnd(g, n, op, agents, l'), n, op)
  {
    var s, g' := g.raft.nodes[n], ProposeAnd(g, n, op, agents, l');
    if s.role == Leader && (n, op.MoveAll?) in g.due {
      assert CarriedOutAt(g, g', n, op, (n, s.currentTerm, |s.log|));
    }
  }

  lemma StepBooks(g: Group, step: GroupStep) returns (op: Operation)
    requires CanStep(g, step)
    ensures Books(g, AfterGroup(g, step), Who(step), op)
  {
    var n := Who(step);
    var s, l := g.raft.nodes[n], g.locals[n];
    op := MoveAll;
    if step.TakeAddSnapshot? {
      op := PutOne(l.task.agent);
      ProposalBooks(g, n, op, Put(l.agents, l.task.agent), AddSnapshot(s, l).1);
    } else if step.TakeRemoveSnapshot? {
      op := DropThese(l.task.ids);
      ProposalBooks(g, n, op, Drop(l.agents, l.task.ids), RemoveSnapshot(s, l).1);
    } else if step.TakeTickSnapshot? && CaughtUp(s) {
      var l' := TickSnapshot(s, l, g.grid).1;
      ProposalBooks(g, n, op, l'.agents, l');
    } else {
      op := OtherBooks(g, step);
    }
  }

  lemma OtherBooks(g: Group, step: GroupStep) returns (op: Operation)
    requires CanStep(g, step) && !step.TakeAddSnapshot? && !step.TakeRemoveSnapshot?
    requires step.TakeTickSnapshot? ==> !CaughtUp(g.raft.nodes[step.n])
    ensures Books(g, AfterGroup(g, step), Who(step), op)
  {
    op := if step.StartAdd? then PutOne(step.agent) else if step.StartRemove? then DropThese(step.ids) else MoveAll;
  }

  lemma BooksKeepAsked(g: Group, g': Group, n: NodeId, op: Operation)
    requires Books(g, g', n, op) && AllAsked(g) && EachOnce(g)
    ensures AllAsked(g') && g.asked <= g'.asked
  {
    forall m | m in g'.locals ensures TaskAsked(g', m, g'.locals[m]) {
      assert TaskAsked(g, m, g.locals[m]);
    }
  }

  lemma RecordedOnce(g: Group, g': Group, n: NodeId, op: Operation)
    requires EachOnce(g) && g'.asked == g.asked + [Request(n, op)]
    requires g'.due == g.due[(n, op.MoveAll?) := |g.asked|] && g'.origins == g.origins
    ensures EachOnce(g')
  {}

  lemma CrossedOutOnce(g: Group, g': Group, n: NodeId, op: Operation)
    requires EachOnce(g) && g'.asked == g.asked && g'.due == g.due - {(n, op.MoveAll?)}
    requires g'.origins == g.origins || exists key :: CarriedOutAt(g, g', n, op, key)
    ensures EachOnce(g')
  {}

  lemma BooksKeepOnce(g: Group, g': Group, n: NodeId, op: Operation)
    requires Books(g, g', n, op) && EachOnce(g)
    ensures EachOnce(g')
  {
    var l, l' := g.locals[n], g'.locals[n];
    if Records(g, g', n, op, l, l') {
      RecordedOnce(g, g', n, op);
    } else if CrossesOut(g, g', n, op, l, l') {
      CrossedOutOnce(g, g', n, op);
    }
  }

  lemma NextKeepsBooked(g: Group, g': Group)
    requires GroupNext(g, g') && Booked(g)
    ensures Booked(g') && g.asked <= g'.asked
  {
    var step :| CanStep(g, step) && g' == AfterGroup(g, step);
    var op := StepBooks(g, step);
    BooksKeepAsked(g, g', Who(step), op);
    BooksKeepOnce(g, g', Who(step), op);
  }

  lemma {:induction false} AlwaysBooked(run: seq<Group>, k: nat)
    requires GroupRun(run) && k < |run|
    ensures Booked(run[k])
  {
    if k > 0 {
      AlwaysBooked(run, k - 1);
      assert GroupStepAt(run, k);
      NextKeepsBooked(run[k - 1], run[k]);
    }
  }

  /** Node `n` leads `term` at every moment from `j` to `k`. */
  ghost predicate Uninterrupted(run: seq<Group>, j: nat, k: nat, n: NodeId, term: nat)
    requires j <= k < |run|
  {
    forall m | j <= m <= k :: n in run[m].raft.nodes && run[m].raft.nodes[n].role == Leader && run[m].raft.nodes[n].currentTerm == term
  }

  /** The replica is idle and its registry is the log's, as far as it is applied. */
  ghost predicate AtRest(g: Group, n: NodeId) {
    && n in g.locals && n in g.raft.nodes && g.locals[n].task == Free
    && g.raft.nodes[n].lastApplied < |g.raft.nodes[n].log|
    && g.locals[n].agents == Replay(g.raft.nodes[n].log, g.raft.nodes[n].lastApplied)
  }

  lemma FirstLeads(g: Group, n: NodeId, term: nat)
    requires AtRest(g, n) && g.raft.nodes[n].role == Leader && g.raft.nodes[n].currentTerm == term
    ensures Leads(g, n, term, |g.raft.nodes[n].log|)
  {}

  /** The next position of a run. */
  lemma MomentLeads(run: seq<Group>, k: nat, n: NodeId, term: nat, start: nat)
    requires GroupRun(run) && 0 < k < |run| && Leads(run[k - 1], n, term, start)
    requires n in run[k].raft.nodes && run[k].raft.nodes[n].role == Leader && run[k].raft.nodes[n].currentTerm == term
    ensures Leads(run[k], n, term, start)
  {
    AppliedBelowCommitted(run, k - 1, n);
    AlwaysBooked(run, k - 1);
    assert GroupStepAt(run, k);
    NextLeads(run[k - 1], run[k], n, term, start);
  }

  lemma {:induction false} StaysLeading(run: seq<Group>, j: nat, k: nat, n: NodeId, term: nat)
    requires GroupRun(run) && j <= k < |run| && Uninterrupted(run, j, k, n, term)
    requires AtRest(run[j], n)
    ensures Leads(run[k], n, term, |run[j].raft.nodes[n].log|)
    decreases k
  {
    if j == k {
      FirstLeads(run[k], n, term);
    } else {
      StaysLeading(run, j, k - 1, n, term);
      MomentLeads(run, k, n, term, |run[j].raft.nodes[n].log|);
    }
  }

  lemma AppliedBelowCommitted(run: seq<Group>, k: nat, n: NodeId)
    requires GroupRun(run) && k < |run| && n in run[k].raft.nodes
    ensures run[k].raft.nodes[n].lastApplied <= run[k].raft.nodes[n].commitIndex
  {
    GroupRunInvariant(run, k);
    assert NodeOk(run[k].raft.history, run[k].raft.nodes.Keys, run[k].raft.nodes[n]);
  }

  lemma NextLeads(g: Group, g': Group, n: NodeId, term: nat, start: nat)
    requires GroupNext(g, g') && AllAsked(g) && Leads(g, n, term, start)
    requires g.raft.nodes[n].lastApplied <= g.raft.nodes[n].commitIndex
    requires n in g'.raft.nodes && g'.raft.nodes[n].role == Leader && g'.raft.nodes[n].currentTerm == term
    ensures Leads(g', n, term, start)
  {
    var step :| CanStep(g, step) && g' == AfterGroup(g, step);
    if step.RaftStep? {
      RaftStepLeads(g, step.step, n, term, start);
    } else if Who(step) == n {
      OwnStepLeads(g, step, term, start);
    } else {
      OtherStepLeads(g, step, n, term, start);
    }
  }

  /** The entries of `log` from `start` on carry out requests of their own. */
  ghost predicate EachItsOwn(g: Group, n: NodeId, log: Log, start: nat) {
    forall i: nat, j: nat | start <= i < j < |log| && (n, log[i].term, i) in g.origins && (n, log[j].term, j) in g.origins ::
      g.origins[(n, log[i].term, i)] != g.origins[(n, log[j].term, j)]
  }

  /** Within one leadership that starts with the lock free and a registry that matches
      what is applied, every entry the leader appends is a snapshot that is the replay of
      the whole log in front of it, changed by exactly the tick, the added agent or the
      removed names that had been asked of this node, and no request is carried out twice. */
  lemma SnapshotsAreFaithful(run: seq<Group>, j: nat, k: nat, n: NodeId, term: nat)
    requires GroupRun(run) && j <= k < |run| && Uninterrupted(run, j, k, n, term)
    requires AtRest(run[j], n)
    ensures FaithfulFrom(run[k], n, run[k].raft.nodes[n].log, |run[j].raft.nodes[n].log|)
    ensures EachItsOwn(run[k], n, run[k].raft.nodes[n].log, |run[j].raft.nodes[n].log|)
    ensures run[k].raft.nodes[n].lastApplied < |run[k].raft.nodes[n].log| && n in run[k].locals
    ensures CaughtUp(run[k].raft.nodes[n]) ==>
              run[k].locals[n].agents == Replay(run[k].raft.nodes[n].log, |run[k].raft.nodes[n].log| - 1)
  {
    StaysLeading(run, j, k, n, term);
    AlwaysBooked(run, k);
  }
}
