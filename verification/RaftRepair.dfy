/** How a leader brings any peer's log in line: each refusal backs up by one entry, and at the
    latest at the sentinel the peer takes the whole log. */
module RaftRepair {
  import opened RaftTypes
  import opened RaftSpec
  import opened RaftCluster
  import opened RaftInvariant
  import opened RaftFrames
  import opened RaftReplicationSteps
  import opened RaftPreservation
  import opened RaftSafety
  import opened RaftElections
  import opened Ways

  // ---------- what can be reached ----------

  ghost predicate Reached(c: Cluster) {
    exists run :: Run(run) && run[|run| - 1] == c
  }

  /** The group can go on from `c` to `c'`. */
  ghost predicate GoesTo(c: Cluster, c': Cluster) {
    LeadsTo(Next, c, c')
  }

  lemma LongerRun(run: seq<Cluster>, c: Cluster)
    requires Run(run) && Next(run[|run| - 1], c)
    ensures Run(run + [c])
  {
    var run' := run + [c];
    forall k | 0 < k < |run'| ensures StepAt(run', k) {
      if k < |run| {
        assert StepAt(run, k);
      }
    }
  }

  lemma ReachedOn(c: Cluster, c': Cluster)
    requires Reached(c) && Next(c, c')
    ensures Reached(c')
  {
    var run :| Run(run) && run[|run| - 1] == c;
    LongerRun(run, c');
    RunReaches(run + [c']);
  }

  lemma RunReaches(run: seq<Cluster>)
    requires Run(run)
    ensures Reached(run[|run| - 1])
  {}

  lemma GoesReached(c: Cluster, c': Cluster)
    requires Reached(c) && GoesTo(c, c')
    ensures Reached(c')
  {
    var way: seq<Cluster> :| Way(Next, way) && way[0] == c && way[|way| - 1] == c';
    WayReaches(way);
  }

  lemma WayReaches(way: seq<Cluster>)
    requires Way(Next, way) && Reached(way[0])
    ensures Reached(way[|way| - 1])
  {
    AllReachedOn();
    var reached := c => Reached(c);
    AlongWay(Next, way, reached, |way| - 1);
    assert reached(way[|way| - 1]);
  }

  lemma AllReachedOn()
    ensures forall a, b | Reached(a) && Next(a, b) :: Reached(b)
  {
    forall a, b | Reached(a) && Next(a, b) ensures Reached(b) {
      ReachedOn(a, b);
    }
  }

  lemma StepGoes(c: Cluster, step: Step)
    requires Possible(c, step) && Defined(c, step)
    ensures GoesTo(c, After(c, step))
  {
    OneMove(Next, c, After(c, step));
  }

  /** What is known of a node of a reachable group, as far as going on needs it. */
  ghost predicate NodeSound(ids: set<NodeId>, n: NodeId, s: NodeState) {
    && s.id == n && PeersOf(ids, n, s.peers)
    && |s.log| > 0 && s.log[0] == SENTINEL && Last(s.log).index == |s.log| - 1
    && s.lastApplied <= s.commitIndex < |s.log| && (s.lastApplied < s.commitIndex ==> s.applySignal)
    && s.applied == s.log[1..s.lastApplied + 1]
    && (forall p | s.role == Leader && p in s.peers :: CanReplicate(s, p))
    && (s.role == Leader ==> Last(s.log).term == s.currentTerm)
    && Short(s)
  }

  ghost predicate Sound(c: Cluster) {
    forall n | n in c.nodes :: NodeSound(c.nodes.Keys, n, c.nodes[n])
  }

  lemma LeaderWrote(h: History, ids: set<NodeId>, s: NodeState)
    requires HistoryOk(h, ids) && NodeOk(h, ids, s) && s.role == Leader
    ensures Last(s.log).term == s.currentTerm
    ensures forall p | p in s.peers :: CanReplicate(s, p)
  {
    assert ReignOk(h, ids, s.currentTerm);
    forall p | p in s.peers ensures CanReplicate(s, p) {
      assert PeerOk(h, s, p);
    }
  }

  lemma KnownIsSound(h: History, ids: set<NodeId>, s: NodeState)
    requires HistoryOk(h, ids) && NodeOk(h, ids, s) && Short(s)
    ensures NodeSound(ids, s.id, s)
  {
    LogFacts(h, ids, s.log);
    if s.role == Leader {
      LeaderWrote(h, ids, s);
    }
  }

  lemma RunIsSound(run: seq<Cluster>, k: nat, n: NodeId)
    requires Run(run) && k < |run| && n in run[k].nodes
    ensures NodeSound(run[k].nodes.Keys, n, run[k].nodes[n])
  {
    RunInvariant(run, k);
    AlwaysShort(run, k);
    KnownOf(run[k], n);
    KnownIsSound(run[k].history, run[k].nodes.Keys, run[k].nodes[n]);
  }

  lemma NodeIsSound(c: Cluster, n: NodeId)
    requires Reached(c) && n in c.nodes
    ensures NodeSound(c.nodes.Keys, n, c.nodes[n])
  {
    var run :| Run(run) && run[|run| - 1] == c;
    RunIsSound(run, |run| - 1, n);
  }

  lemma ReachedIsSound(c: Cluster)
    requires Reached(c)
    ensures Sound(c)
  {
    forall n | n in c.nodes ensures NodeSound(c.nodes.Keys, n, c.nodes[n]) {
      NodeIsSound(c, n);
    }
  }

  /** One term at one place means the same log up to there. */
  ghost predicate MatchAt(a: Log, b: Log, i: int) {
    0 <= i < |a| && i < |b| && a[i].term == b[i].term ==> Agree(a, b, i + 1)
  }

  ghost predicate Matching(a: Log, b: Log) {
    forall i {:trigger MatchAt(a, b, i)} :: MatchAt(a, b, i)
  }

  lemma SamePrefixAgrees(a: Log, b: Log, k: nat)
    requires k <= |a| && k <= |b| && a[..k] == b[..k]
    ensures Agree(a, b, k)
  {
    forall j | 0 <= j < k ensures a[j] == b[j] {
      assert a[..k][j] == b[..k][j];
    }
  }

  lemma LogsMatch(c: Cluster, n: NodeId, p: NodeId)
    requires Reached(c) && n in c.nodes && p in c.nodes
    ensures Matching(c.nodes[n].log, c.nodes[p].log)
  {
    var run :| Run(run) && run[|run| - 1] == c;
    var k := |run| - 1;
    var a, b := c.nodes[n].log, c.nodes[p].log;
    forall i ensures MatchAt(a, b, i) {
      if 0 <= i < |a| && i < |b| && a[i].term == b[i].term {
        LogMatchingProperty(run, k, a, k, b, i);
        SamePrefixAgrees(a, b, i + 1);
      }
    }
  }

  // ---------- one round of replication ----------

  ghost predicate Steady(c: Cluster, n: NodeId) {
    n in c.nodes && c.nodes[n].running && c.nodes[n].role == Leader
  }

  /** A request of leader `n` is on its way to `p`. */
  lemma Ask(c: Cluster, n: NodeId, p: NodeId) returns (c': Cluster, call: AppendCall)
    requires Sound(c) && Steady(c, n) && p in c.nodes[n].peers && p in c.nodes && CanReplicate(c.nodes[n], p)
    ensures GoesTo(c, c') && c'.nodes == c.nodes && call in c'.appendCalls && call in c'.openAppends
    ensures call.src == n && call.dst == p && call.args == AppendRequest(c.nodes[n], p)
  {
    assert NodeSound(c.nodes.Keys, n, c.nodes[n]);
    call := AppendCall(c.sends, n, p, AppendRequest(c.nodes[n], p));
    c' := After(c, SendAppend(n, p));
    StepGoes(c, SendAppend(n, p));
  }

  /** The request is answered. */
  lemma Answer(c: Cluster, call: AppendCall) returns (c': Cluster, reply: AppendEntriesReply)
    requires Sound(c) && call in c.appendCalls && call in c.openAppends && call.dst in c.nodes
    ensures GoesTo(c, c') && reply == HandleAppendEntries(c.nodes[call.dst], call.args).1
    ensures c'.nodes == c.nodes[call.dst := HandleAppendEntries(c.nodes[call.dst], call.args).0]
    ensures call in c'.openAppends && (call, reply) in c'.appendReplies
  {
    assert NodeSound(c.nodes.Keys, call.dst, c.nodes[call.dst]);
    reply := HandleAppendEntries(c.nodes[call.dst], call.args).1;
    c' := After(c, ServeAppend(call));
    StepGoes(c, ServeAppend(call));
  }

  /** Leader `n` sends to `p`, `p` answers, the answer arrives. */
  lemma Round(c: Cluster, n: NodeId, p: NodeId, peer': NodeState, reply: AppendEntriesReply, s': NodeState) returns (c': Cluster)
    requires Sound(c) && Steady(c, n) && p in c.nodes[n].peers && p in c.nodes && p != n && CanReplicate(c.nodes[n], p)
    requires |c.nodes[n].log| > 0 && (peer', reply) == HandleAppendEntries(c.nodes[p], AppendRequest(c.nodes[n], p))
    requires s' == ReceiveAppendReply(c.nodes[n], p, AppendRequest(c.nodes[n], p), reply)
    ensures GoesTo(c, c') && c'.nodes == c.nodes[p := peer'][n := s']
  {
    assert NodeSound(c.nodes.Keys, n, c.nodes[n]);
    var c1, call := Ask(c, n, p);
    var c2, r := Answer(c1, call);
    c' := After(c2, GetAppendReply(call, reply));
    StepGoes(c2, GetAppendReply(call, reply));
    Trans(Next, c, c1, c2);
    Trans(Next, c, c2, c');
  }

  // ---------- what an answer does ----------

  /** Leader `s` has become `s'` through answers alone. */
  ghost predicate SameReign(s: NodeState, s': NodeState) {
    && s'.log == s.log && s'.currentTerm == s.currentTerm && s'.role == Leader && s'.peers == s.peers
    && s'.id == s.id && s'.running == s.running && s'.lastApplied == s.lastApplied
    && s.commitIndex <= s'.commitIndex < |s.log|
  }

  /** Nothing that could be committed is left over. */
  ghost predicate AtFront(s: NodeState) {
    s.log != [] && (Committable(s, |s.log| - 1) ==> s.commitIndex >= |s.log| - 1)
  }

  /** What one successful answer of `p` does to the leader. */
  lemma AnswerOk(s: NodeState, p: NodeId) returns (s': NodeState)
    requires s.role == Leader && CanReplicate(s, p) && s.commitIndex < |s.log|
    ensures s' == ReceiveAppendReply(s, p, AppendRequest(s, p), AppendEntriesReply(s.currentTerm, true))
    ensures SameReign(s, s')
    ensures s'.matchIndex == s.matchIndex[p := |s.log| - 1] && s'.nextIndex == s.nextIndex[p := |s.log|]
    ensures AtFront(s')
  {
    s' := ReceiveAppendReply(s, p, AppendRequest(s, p), AppendEntriesReply(s.currentTerm, true));
    var noted := s.(matchIndex := s.matchIndex[p := |s.log| - 1], nextIndex := s.nextIndex[p := |s.log|]);
    assert s' == AdvanceCommitIndex(noted);
    assert Committable(s', |s.log| - 1) <==> Committable(noted, |s.log| - 1);
  }

  /** A log that takes the leader's suffix from a place where they agree starts with the leader's log. */
  lemma MergedStartsWith(log: Log, full: Log, args: AppendEntriesArgs)
    requires Matching(log, full) && args.prevLogIndex < |full| && args.entries == full[args.prevLogIndex + 1..]
    requires LogAccepts(log, args) && args.prevLogTerm == full[args.prevLogIndex].term
    ensures Agree(full, Merge(log, args.prevLogIndex + 1, args.entries), |full|)
  {
    var k := MatchLength(log, args.prevLogIndex + 1, args.entries);
    assert k > 0 ==> Has(log, args.prevLogIndex + 1, args.entries, k - 1);
    assert MatchAt(log, full, args.prevLogIndex + k);
    MergedAgrees(log, args, full, Merge(log, args.prevLogIndex + 1, args.entries));
    AgreeBothWays(Merge(log, args.prevLogIndex + 1, args.entries), full, |full|);
  }

  lemma AgreeBothWays(a: Log, b: Log, k: nat)
    requires Agree(a, b, k)
    ensures Agree(b, a, k)
  {}

  /** The peer did what the leader's request asked for. */
  ghost predicate InLine(s: NodeState, peer: NodeState, peer': NodeState) {
    && Agree(s.log, peer'.log, |s.log|)
    && peer'.id == peer.id && peer'.peers == peer.peers && peer'.running == peer.running
    && peer'.currentTerm == s.currentTerm && peer'.role == Follower && peer'.leaderId == s.id
    && peer.lastApplied <= peer'.lastApplied
    && peer'.commitIndex >= RaftSpec.Min(s.commitIndex, |s.log| - 1)
  }

  /** The request carries all of the leader's log behind some place. */
  ghost predicate FromLog(s: NodeState, args: AppendEntriesArgs) {
    && args.term == s.currentTerm && args.leaderId == s.id && args.leaderCommit == s.commitIndex < |s.log|
    && args.prevLogIndex < |s.log| && args.prevLogTerm == s.log[args.prevLogIndex].term
    && args.entries == s.log[args.prevLogIndex + 1..]
  }

  lemma PeerTakes(s: NodeState, peer: NodeState, args: AppendEntriesArgs) returns (peer': NodeState)
    requires FromLog(s, args) && AcceptsAppend(peer, args) && Matching(peer.log, s.log)
    ensures HandleAppendEntries(peer, args) == (peer', AppendEntriesReply(s.currentTerm, true))
    ensures InLine(s, peer, peer')
  {
    MergedStartsWith(peer.log, s.log, args);
    peer' := Accepting(peer, args);
    ComesInLine(s, peer, peer', Merge(peer.log, args.prevLogIndex + 1, args.entries));
  }

  lemma ComesInLine(s: NodeState, peer: NodeState, peer': NodeState, log: Log)
    requires s.commitIndex < |s.log| && peer'.log == log
    requires peer'.id == peer.id && peer'.peers == peer.peers && peer'.running == peer.running && peer'.lastApplied == peer.lastApplied
    requires peer'.currentTerm == s.currentTerm && peer'.role == Follower && peer'.leaderId == s.id
    requires peer'.commitIndex >= RaftSpec.Min(s.commitIndex, |peer'.log| - 1)
    ensures Agree(s.log, log, |s.log|) ==> InLine(s, peer, peer')
  {}

  lemma Accepting(peer: NodeState, args: AppendEntriesArgs) returns (peer': NodeState)
    requires AcceptsAppend(peer, args)
    ensures HandleAppendEntries(peer, args) == (peer', AppendEntriesReply(args.term, true))
    ensures peer'.log == Merge(peer.log, args.prevLogIndex + 1, args.entries)
    ensures peer'.id == peer.id && peer'.peers == peer.peers && peer'.running == peer.running && peer'.lastApplied == peer.lastApplied
    ensures peer'.currentTerm == args.term && peer'.role == Follower && peer'.leaderId == args.leaderId
    ensures peer'.commitIndex >= RaftSpec.Min(args.leaderCommit, |peer'.log| - 1)
  {
    peer' := HandleAppendEntries(peer, args).0;
  }

  /** What one refusal of `p` does: the leader backs up, which it can at most to the sentinel. */
  lemma RefusalBacksUp(s: NodeState, peer: NodeState, p: NodeId) returns (peer': NodeState, reply: AppendEntriesReply, s': NodeState)
    requires s.role == Leader && CanReplicate(s, p) && peer.currentTerm <= s.currentTerm
    requires |peer.log| > 0 && peer.log[0].term == s.log[0].term
    requires !LogAccepts(peer.log, AppendRequest(s, p))
    ensures s.nextIndex[p] > 1
    ensures (peer', reply) == HandleAppendEntries(peer, AppendRequest(s, p))
    ensures s' == ReceiveAppendReply(s, p, AppendRequest(s, p), reply)
    ensures s' == s.(nextIndex := s.nextIndex[p := s.nextIndex[p] - 1])
    ensures peer' == peer.(currentTerm := s.currentTerm, role := Follower, leaderId := s.id,
                           votedFor := if s.currentTerm > peer.currentTerm then NOBODY else peer.votedFor)
  {
    peer', reply := HandleAppendEntries(peer, AppendRequest(s, p)).0, HandleAppendEntries(peer, AppendRequest(s, p)).1;
    s' := ReceiveAppendReply(s, p, AppendRequest(s, p), reply);
  }

  // ---------- repair ----------

  type Nodes = map<NodeId, NodeState>

  /** What the round did to the two. */
  ghost predicate Both(s: NodeState, s': NodeState, peer: NodeState, peer': NodeState, p: NodeId) {
    && SameReign(s, s') && AtFront(s')
    && s'.matchIndex == s.matchIndex[p := |s.log| - 1] && s'.nextIndex == s.nextIndex[p := |s.log|]
    && InLine(s, peer, peer')
  }

  /** By rounds between the leader `n` and peer `p` alone, the peer has come in line. */
  ghost predicate Aligned(nodes: Nodes, nodes': Nodes, n: NodeId, p: NodeId) {
    && n in nodes && p in nodes && n != p && nodes'.Keys == nodes.Keys
    && (forall m | m in nodes && m != n && m != p :: nodes'[m] == nodes[m])
    && Both(nodes[n], nodes'[n], nodes[p], nodes'[p], p)
  }

  lemma AcceptancePair(s: NodeState, peer: NodeState, p: NodeId) returns (peer': NodeState, s': NodeState)
    requires s.role == Leader && s.commitIndex < |s.log| && CanReplicate(s, p) && Matching(peer.log, s.log)
    requires peer.currentTerm <= s.currentTerm && LogAccepts(peer.log, AppendRequest(s, p))
    ensures var reply := AppendEntriesReply(s.currentTerm, true);
            && HandleAppendEntries(peer, AppendRequest(s, p)) == (peer', reply)
            && s' == ReceiveAppendReply(s, p, AppendRequest(s, p), reply)
    ensures Both(s, s', peer, peer', p)
  {
    peer' := PeerTakes(s, peer, AppendRequest(s, p));
    s' := AnswerOk(s, p);
  }

  lemma AcceptanceAligns(nodes: Nodes, n: NodeId, p: NodeId) returns (peer': NodeState, s': NodeState)
    requires n in nodes && p in nodes && n != p && nodes[n].role == Leader && nodes[n].commitIndex < |nodes[n].log|
    requires CanReplicate(nodes[n], p) && Matching(nodes[p].log, nodes[n].log)
    requires nodes[p].currentTerm <= nodes[n].currentTerm && LogAccepts(nodes[p].log, AppendRequest(nodes[n], p))
    ensures var reply := AppendEntriesReply(nodes[n].currentTerm, true);
            && HandleAppendEntries(nodes[p], AppendRequest(nodes[n], p)) == (peer', reply)
            && s' == ReceiveAppendReply(nodes[n], p, AppendRequest(nodes[n], p), reply)
    ensures Aligned(nodes, nodes[p := peer'][n := s'], n, p)
  {
    peer', s' := AcceptancePair(nodes[n], nodes[p], p);
  }

  lemma AcceptedRound(c: Cluster, n: NodeId, p: NodeId) returns (c': Cluster)
    requires Sound(c) && Steady(c, n) && p in c.nodes[n].peers && p in c.nodes && p != n && CanReplicate(c.nodes[n], p)
    requires Matching(c.nodes[p].log, c.nodes[n].log)
    requires c.nodes[p].currentTerm <= c.nodes[n].currentTerm && LogAccepts(c.nodes[p].log, AppendRequest(c.nodes[n], p))
    ensures GoesTo(c, c') && Aligned(c.nodes, c'.nodes, n, p)
  {
    assert NodeSound(c.nodes.Keys, n, c.nodes[n]);
    var peer', s' := AcceptanceAligns(c.nodes, n, p);
    c' := Round(c, n, p, peer', AppendEntriesReply(c.nodes[n].currentTerm, true), s');
  }

  /** What the refusal of `p` leaves of both. */
  ghost predicate BackedUp(nodes: Nodes, nodes': Nodes, n: NodeId, p: NodeId) {
    && n in nodes && p in nodes && n != p && p in nodes[n].nextIndex && nodes[n].nextIndex[p] > 1
    && var s, peer := nodes[n], nodes[p];
    nodes' == nodes[p := peer.(currentTerm := s.currentTerm, role := Follower, leaderId := s.id,
                               votedFor := if s.currentTerm > peer.currentTerm then NOBODY else peer.votedFor)]
                   [n := s.(nextIndex := s.nextIndex[p := s.nextIndex[p] - 1])]
  }

  lemma RefusedRound(c: Cluster, n: NodeId, p: NodeId) returns (c': Cluster)
    requires Sound(c) && Steady(c, n) && p in c.nodes[n].peers && p in c.nodes && p != n && CanReplicate(c.nodes[n], p)
    requires c.nodes[p].currentTerm <= c.nodes[n].currentTerm && !LogAccepts(c.nodes[p].log, AppendRequest(c.nodes[n], p))
    ensures GoesTo(c, c') && BackedUp(c.nodes, c'.nodes, n, p)
  {
    assert NodeSound(c.nodes.Keys, n, c.nodes[n]);
    assert NodeSound(c.nodes.Keys, p, c.nodes[p]);
    var peer', reply, s' := RefusalBacksUp(c.nodes[n], c.nodes[p], p);
    c' := Round(c, n, p, peer', reply, s');
  }

  lemma AlignedAfterBackUp(nodes: Nodes, nodes1: Nodes, nodes': Nodes, n: NodeId, p: NodeId)
    requires BackedUp(nodes, nodes1, n, p) && Aligned(nodes1, nodes', n, p)
    requires nodes[n].role == Leader
    ensures Aligned(nodes, nodes', n, p)
  {}

  /** Whatever a peer's log is, finitely many rounds make it start with the leader's: for any leader
      of a reachable group and any peer of a term no later. Nobody else takes part. */
  lemma {:induction false} Repair(c: Cluster, n: NodeId, p: NodeId) returns (c': Cluster)
    requires Reached(c) && Steady(c, n) && p in c.nodes[n].peers
    requires p in c.nodes && c.nodes[p].currentTerm <= c.nodes[n].currentTerm
    ensures GoesTo(c, c') && Reached(c') && Aligned(c.nodes, c'.nodes, n, p)
    decreases if p in c.nodes[n].nextIndex then c.nodes[n].nextIndex[p] else 0
  {
    ReachedIsSound(c);
    PeerFacts(c, n, p);
    if LogAccepts(c.nodes[p].log, AppendRequest(c.nodes[n], p)) {
      LogsMatch(c, p, n);
      c' := AcceptedRound(c, n, p);
    } else {
      var c1 := RefusedRound(c, n, p);
      GoesReached(c, c1);
      c' := Repair(c1, n, p);
      AlignedAfterBackUp(c.nodes, c1.nodes, c'.nodes, n, p);
      Trans(Next, c, c1, c');
    }
    GoesReached(c, c');
  }

  lemma PeerFacts(c: Cluster, n: NodeId, p: NodeId)
    requires Sound(c) && Steady(c, n) && p in c.nodes[n].peers
    ensures p != n && p in c.nodes && CanReplicate(c.nodes[n], p)
  {
    assert NodeSound(c.nodes.Keys, n, c.nodes[n]);
  }
}
