/** Why roll-backs must be harmless: once a leader is caught up with a log that lists an
    agent and its registry does not, its next tick proposes the agent's end, and with a
    majority that follows, commits it. */
module ShardErasure {
  import opened World
  import opened RaftTypes
  import opened RaftSpec
  import opened RaftCluster
  import opened RaftFrames
  import opened RaftNodeSteps
  import opened RaftReplicationSteps
  import opened ShardSpec
  import opened ShardGroup
  import opened ShardLoss
  import Survival = ShardSurvival
  import Ways
  import opened RaftRepair

  // ---------- going on from a state ----------

  ghost predicate LeadsTo(g: Group, g': Group) {
    Ways.LeadsTo(GroupNext, g, g')
  }

  lemma StepLeadsTo(g: Group, step: GroupStep, g': Group)
    requires Leads(g, step, g')
    ensures LeadsTo(g, g')
  {
    Ways.OneMove(GroupNext, g, g');
  }

  lemma LeadsToTrans(a: Group, b: Group, c: Group)
    requires LeadsTo(a, b) && LeadsTo(b, c)
    ensures LeadsTo(a, c)
  {
    Ways.Trans(GroupNext, a, b, c);
  }

  // ---------- a leader and the peers that follow ----------

  /** `n` leads and can reach its peers. */
  ghost predicate Rules(g: Group, n: NodeId) {
    && Present(g, n)
    && var s := g.raft.nodes[n];
    && s.id == n && s.running && s.role == Leader
    && (forall p | p in s.peers :: CanReplicate(s, p))
  }

  /** Peer `p` takes what the leader `s` has for it. */
  predicate WouldFollow(s: NodeState, peer: NodeState, p: NodeId) {
    && CanReplicate(s, p) && peer.id == p && peer.currentTerm <= s.currentTerm && peer.commitIndex < |peer.log|
    && LogAccepts(peer.log, AppendRequest(s, p))
  }

  ghost predicate AllFollow(g: Group, n: NodeId, ps: seq<NodeId>) {
    && Rules(g, n)
    && (forall i, j | 0 <= i < j < |ps| :: ps[i] != ps[j])
    && (forall p | p in ps ::
          p != n && p in g.raft.nodes[n].peers && p in g.raft.nodes && p in g.locals
          && WouldFollow(g.raft.nodes[n], g.raft.nodes[p], p))
  }

  lemma PeerTakes(s: NodeState, peer: NodeState, p: NodeId) returns (peer': NodeState)
    requires WouldFollow(s, peer, p)
    ensures HandleAppendEntries(peer, AppendRequest(s, p)) == (peer', AppendEntriesReply(s.currentTerm, true))
  {
    peer' := HandleAppendEntries(peer, AppendRequest(s, p)).0;
  }

  lemma RoundTrip(g: Group, n: NodeId, p: NodeId, peer': NodeState, s': NodeState) returns (g': Group)
    requires Rules(g, n) && p != n && p in g.raft.nodes[n].peers && Present(g, p) && CanReplicate(g.raft.nodes[n], p)
    requires var s := g.raft.nodes[n]; var reply := AppendEntriesReply(s.currentTerm, true);
             && HandleAppendEntries(g.raft.nodes[p], AppendRequest(s, p)) == (peer', reply)
             && s' == ReceiveAppendReply(s, p, AppendRequest(s, p), reply)
    requires Fit(n, s')
    ensures LeadsTo(g, g') && g'.locals == g.locals && g'.raft.nodes == g.raft.nodes[p := peer'][n := s']
  {
    var reply := AppendEntriesReply(g.raft.nodes[n].currentTerm, true);
    var call, g1, g2, g3 := ReplicateGroup(g, n, p, peer', reply, s');
    StepLeadsTo(g, RaftStep(SendAppend(n, p)), g1);
    StepLeadsTo(g1, RaftStep(ServeAppend(call)), g2);
    StepLeadsTo(g2, RaftStep(GetAppendReply(call, reply)), g3);
    LeadsToTrans(g, g1, g2);
    LeadsToTrans(g, g2, g3);
    g' := g3;
  }

  /** The leader went on from `g` to `g'` by one answer, that of `p`. */
  ghost predicate Served(g: Group, g': Group, n: NodeId, p: NodeId)
    requires n in g.raft.nodes && n in g'.raft.nodes
  {
    var s, s' := g.raft.nodes[n], g'.raft.nodes[n];
    && SameReign(s, s')
    && s'.matchIndex == s.matchIndex[p := |s.log| - 1] && s'.nextIndex == s.nextIndex[p := |s.log|]
    && AtFront(s')
    && forall m | m in g.raft.nodes && m != n && m != p :: m in g'.raft.nodes && g'.raft.nodes[m] == g.raft.nodes[m]
  }

  /** One peer is served and its answer arrives. */
  lemma ServeOne(g: Group, n: NodeId, p: NodeId) returns (g': Group)
    requires Rules(g, n) && p != n && p in g.raft.nodes[n].peers && p in g.raft.nodes && p in g.locals
    requires WouldFollow(g.raft.nodes[n], g.raft.nodes[p], p)
    ensures LeadsTo(g, g') && g'.locals == g.locals
    ensures Rules(g', n) && Served(g, g', n, p)
  {
    var peer' := PeerTakes(g.raft.nodes[n], g.raft.nodes[p], p);
    var s' := AnswerOk(g.raft.nodes[n], p);
    g' := RoundTrip(g, n, p, peer', s');
  }

  /** The peers in `ps` hold the leader's whole log. */
  predicate AllMatch(s: NodeState, ps: seq<NodeId>) {
    forall p | p in ps :: p in s.peers && p in s.matchIndex && s.matchIndex[p] >= |s.log| - 1
  }

  lemma MajorityCommits(s: NodeState, ps: seq<NodeId>)
    requires |s.log| > 0 && s.log[|s.log| - 1].term == s.currentTerm && AllMatch(s, ps)
    requires Distinct(ps) && Distinct(s.peers)
    requires 1 + |ps| >= MajoritySize(s.peers)
    ensures Committable(s, |s.log| - 1)
  {
    var n := |s.log| - 1;
    CountIsSize(s.peers, s.matchIndex, n);
    var holders := set p | p in s.peers && p in s.matchIndex && s.matchIndex[p] >= n;
    var some := set p | p in ps;
    SeqSetSize(ps);
    assert some <= holders;
    SubsetSize(some, holders);
  }

  lemma OthersFollow(g: Group, g': Group, n: NodeId, ps: seq<NodeId>)
    requires AllFollow(g, n, ps) && ps != [] && Rules(g', n) && Served(g, g', n, ps[0]) && g'.locals == g.locals
    ensures AllFollow(g', n, ps[1..])
  {
    var s, s' := g.raft.nodes[n], g'.raft.nodes[n];
    forall p | p in ps[1..]
      ensures p in g'.raft.nodes && WouldFollow(s', g'.raft.nodes[p], p)
    {
      assert p in ps && p != ps[0];
      SameOffer(s, s', g.raft.nodes[p], p);
    }
  }

  lemma SameOffer(s: NodeState, s': NodeState, peer: NodeState, p: NodeId)
    requires WouldFollow(s, peer, p) && CanReplicate(s', p) && s'.currentTerm == s.currentTerm
    requires s'.nextIndex[p] == s.nextIndex[p] && s'.log[s.nextIndex[p] - 1] == s.log[s.nextIndex[p] - 1]
    ensures WouldFollow(s', peer, p)
  {}

  predicate Distinct(ps: seq<NodeId>) {
    forall i, j | 0 <= i < j < |ps| :: ps[i] != ps[j]
  }

  /** With the answers of `ps` and those of `done`, which it has, the leader can commit its whole log. */
  predicate Enough(s: NodeState, done: seq<NodeId>, ps: seq<NodeId>) {
    && AllMatch(s, done) && Distinct(done + ps) && Distinct(s.peers)
    && |s.log| > 0 && s.log[|s.log| - 1].term == s.currentTerm && 1 + |done| + |ps| >= MajoritySize(s.peers)
  }

  lemma EnoughLeft(s: NodeState, s': NodeState, done: seq<NodeId>, ps: seq<NodeId>)
    requires Enough(s, done, ps) && |ps| > 1 && ps[0] in s.peers && SameReign(s, s')
    requires s'.matchIndex == s.matchIndex[ps[0] := |s.log| - 1]
    ensures Enough(s', done + [ps[0]], ps[1..])
  {
    assert (done + [ps[0]]) + ps[1..] == done + ps;
  }

  /** The leader reaches all of `ps`, some peers `done` having its log already. */
  lemma ServeAll(g: Group, n: NodeId, done: seq<NodeId>, ps: seq<NodeId>) returns (g': Group)
    requires AllFollow(g, n, ps) && ps != [] && Enough(g.raft.nodes[n], done, ps)
    ensures LeadsTo(g, g') && Rules(g', n) && SameReign(g.raft.nodes[n], g'.raft.nodes[n])
    ensures g'.raft.nodes[n].commitIndex == |g'.raft.nodes[n].log| - 1
    decreases |ps|
  {
    var s := g.raft.nodes[n];
    var g1 := ServeOne(g, n, ps[0]);
    if |ps| == 1 {
      LastAnswer(s, g1.raft.nodes[n], done, ps);
      g' := g1;
    } else {
      OthersFollow(g, g1, n, ps);
      EnoughLeft(s, g1.raft.nodes[n], done, ps);
      g' := ServeAll(g1, n, done + [ps[0]], ps[1..]);
      LeadsToTrans(g, g1, g');
    }
  }

  lemma LastAnswer(s: NodeState, s': NodeState, done: seq<NodeId>, ps: seq<NodeId>)
    requires Enough(s, done, ps) && |ps| == 1 && ps[0] in s.peers && SameReign(s, s')
    requires s'.matchIndex == s.matchIndex[ps[0] := |s.log| - 1]
    ensures Committable(s', |s'.log| - 1)
  {
    MajorityCommits(s', done + ps);
  }

  // ---------- a removal ----------

  /** A leader that is caught up and free can carry out a removal at once: the log then says what
      the registry did, without the names. */
  lemma RemovalGoesThrough(g: Group, n: NodeId, ids: set<AgentId>) returns (g': Group)
    requires Rules(g, n) && CaughtUp(g.raft.nodes[n]) && g.locals[n].task == Free
    ensures LeadsTo(g, g') && n in g'.raft.nodes && n in g'.locals
    ensures var s, s' := g.raft.nodes[n], g'.raft.nodes[n];
            && |s'.log| == |s.log| + 1 && s'.log[..|s.log|] == s.log
            && Replay(s'.log, |s.log|) == g.locals[n].agents - ids
            && g'.locals[n].agents == g.locals[n].agents - ids && g'.locals[n].task == Free
  {
    var g1 := AfterGroup(g, StartRemove(n, ids));
    g' := AfterGroup(g1, TakeRemoveSnapshot(n));
    StepLeadsTo(g, StartRemove(n, ids), g1);
    StepLeadsTo(g1, TakeRemoveSnapshot(n), g');
    LeadsToTrans(g, g1, g');
  }

  // ---------- the end of an agent ----------

  /** Replica `n` leads, is caught up and idle, and does not know `x`, which its log lists. */
  ghost predicate Forgets(g: Group, n: NodeId, x: AgentId) {
    && Rules(g, n)
    && CaughtUp(g.raft.nodes[n]) && g.locals[n].task == Free && !g.locals[n].ticking
    && x in Replay(g.raft.nodes[n].log, |g.raft.nodes[n].log| - 1) && x !in g.locals[n].agents
  }

  /** How a replica comes to forget: after a roll-back that was not harmless, and as long as its
      log only grows by the no-ops of elections, its registry lacks what its log lists. */
  lemma HarmfulRollBackForgets(x: AgentId, s: NodeState, l: Local, log: Log, k: nat)
    requires l.task.Adding? && !Survival.Harmless(x, s, l)
    requires s.lastApplied <= k < |log| && log[..s.lastApplied + 1] == s.log[..s.lastApplied + 1]
    requires forall i | s.lastApplied < i <= k :: log[i].command.NoOp?
    ensures x in Replay(log, k) && x !in ApplyRange(RollBack(l).agents, log, s.lastApplied, k)
  {
    Survival.ReplayIsLastSnapshot(s.log, l.task.index - 1, s.lastApplied);
    ReplayPrefix(s.log, log, s.lastApplied);
    ReplayOnwards(log, s.lastApplied, k);
    ApplyRangeForgets(Replay(log, s.lastApplied), map[], log, s.lastApplied, k);
    ApplyRangeForgets(RollBack(l).agents, map[], log, s.lastApplied, k);
  }

  /** The next tick writes the agent off. */
  lemma NextTickForgets(g: Group, n: NodeId, x: AgentId, ps: seq<NodeId>) returns (g': Group)
    requires Forgets(g, n, x) && AllFollow(g, n, ps)
    ensures LeadsTo(g, g') && AllFollow(g', n, ps) && g'.raft.nodes[n].peers == g.raft.nodes[n].peers
    ensures var log, log' := g.raft.nodes[n].log, g'.raft.nodes[n].log;
            && |log'| == |log| + 1 && log'[..|log|] == log && log'[|log|].term == g'.raft.nodes[n].currentTerm
            && x !in Replay(log', |log|)
  {
    var s, agents := g.raft.nodes[n], StepAll(g.locals[n].agents, g.grid);
    var s' := Propose(s, Snapshot(agents));
    var g1, g2 := TickGroup(g, n, s', g.locals[n].(agents := agents));
    StepLeadsTo(g, StartTick(n), g1);
    StepLeadsTo(g1, TakeTickSnapshot(n), g2);
    LeadsToTrans(g, g1, g2);
    g' := g2;
    forall p | p in ps ensures p in g'.raft.nodes && WouldFollow(s', g'.raft.nodes[p], p) {
      SameOffer(s, s', g.raft.nodes[p], p);
    }
  }

  /** A roll-back that was not harmless leaves a replica that forgets: should it lead and be
      caught up, its next tick writes the agent off, and if a majority follows that is committed. */
  lemma ForgetfulLeaderErases(g: Group, n: NodeId, x: AgentId, ps: seq<NodeId>) returns (g': Group)
    requires Forgets(g, n, x) && AllFollow(g, n, ps) && ps != []
    requires 1 + |ps| >= MajoritySize(g.raft.nodes[n].peers)
    requires PeersOf(g.raft.nodes.Keys, n, g.raft.nodes[n].peers)
    ensures LeadsTo(g, g') && n in g'.raft.nodes
    ensures var log, s' := g.raft.nodes[n].log, g'.raft.nodes[n];
            log <= s'.log && |log| == s'.commitIndex < |s'.log| && x !in Replay(s'.log, s'.commitIndex)
  {
    var g1 := NextTickForgets(g, n, x, ps);
    assert [] + ps == ps;
    g' := ServeAll(g1, n, [], ps);
    LeadsToTrans(g, g1, g');
  }
}
