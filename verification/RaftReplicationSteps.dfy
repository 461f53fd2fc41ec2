/** Replication steps keep what is known about the acting node. */
module RaftReplicationSteps {
  import opened RaftTypes
  import opened RaftSpec
  import opened RaftCluster
  import opened RaftInvariant
  import opened RaftFrames
  import opened RaftHistorySteps
  import opened RaftCompleteness
  import opened RaftNodeSteps

  // ---------- taking entries ----------

  /** A follower that accepted `args`, where `full` is the log of the leader of that term. */
  ghost predicate Accepted(h: History, log: Log, args: AppendEntriesArgs, full: Log) {
    && FromLeaders(h, log) && FromLeaders(h, full)
    && LogAccepts(log, args)
    && args.prevLogIndex + |args.entries| < |full|
    && full[args.prevLogIndex].term == args.prevLogTerm
    && forall j | 0 <= j < |args.entries| :: args.entries[j] == full[args.prevLogIndex + 1 + j]
  }

  /** Entries that match by term are the leader's entries. */
  lemma MatchedEntriesAgree(h: History, log: Log, args: AppendEntriesArgs, full: Log)
    requires Accepted(h, log, args, full)
    ensures Agree(log, full, args.prevLogIndex + 1 + MatchLength(log, args.prevLogIndex + 1, args.entries))
  {
    var base := args.prevLogIndex + 1;
    var k := MatchLength(log, base, args.entries);
    if k == 0 {
      LogMatching(h, log, full, args.prevLogIndex);
    } else {
      assert Has(log, base, args.entries, k - 1);
      LogMatching(h, log, full, base + k - 1);
    }
  }

  /** What `log'` has become by taking in some of `full` up to `e`. */
  ghost predicate TakenIn(log: Log, full: Log, log': Log, e: nat) {
    && Agree(log', full, e) && (log' == log || |log'| == e)
    && forall k | Agree(log, full, k) :: Agree(log, log', k)
  }

  lemma MergedAgrees(log: Log, args: AppendEntriesArgs, full: Log, log': Log)
    requires args.prevLogIndex < |log| && args.prevLogIndex + |args.entries| < |full|
    requires forall j | 0 <= j < |args.entries| :: args.entries[j] == full[args.prevLogIndex + 1 + j]
    requires Agree(log, full, args.prevLogIndex + 1 + MatchLength(log, args.prevLogIndex + 1, args.entries))
    requires log' == Merge(log, args.prevLogIndex + 1, args.entries)
    ensures TakenIn(log, full, log', args.prevLogIndex + |args.entries| + 1)
  {
    var k := MatchLength(log, args.prevLogIndex + 1, args.entries);
    if k < |args.entries| {
      CutLog(log, args, full, k);
    } else {
      WholeLog(log, full, args.prevLogIndex + |args.entries| + 1);
    }
  }

  lemma WholeLog(log: Log, full: Log, e: nat)
    requires Agree(log, full, e)
    ensures TakenIn(log, full, log, e)
  {}

  lemma MergedLog(h: History, log: Log, args: AppendEntriesArgs, full: Log, log': Log)
    requires Accepted(h, log, args, full)
    requires log' == Merge(log, args.prevLogIndex + 1, args.entries)
    ensures TakenIn(log, full, log', args.prevLogIndex + |args.entries| + 1) && FromLeaders(h, log')
  {
    MatchedEntriesAgree(h, log, args, full);
    MergedAgrees(log, args, full, log');
    if log' != log {
      PrefixFromLeaders(h, log', full);
    }
  }

  /** The case in which the first missing entry is number `k`. */
  lemma CutLog(log: Log, args: AppendEntriesArgs, full: Log, k: nat)
    requires args.prevLogIndex + |args.entries| < |full|
    requires forall j | 0 <= j < |args.entries| :: args.entries[j] == full[args.prevLogIndex + 1 + j]
    requires k < |args.entries| && !Has(log, args.prevLogIndex + 1, args.entries, k)
    requires Agree(log, full, args.prevLogIndex + 1 + k)
    ensures TakenIn(log, full, log[..args.prevLogIndex + 1 + k] + args.entries[k..], args.prevLogIndex + |args.entries| + 1)
  {
    var cut := args.prevLogIndex + 1 + k;
    var log' := log[..cut] + args.entries[k..];
    forall j | 0 <= j < |log'| ensures log'[j] == full[j] {
      if j >= cut { assert log'[j] == args.entries[j - args.prevLogIndex - 1]; }
    }
    assert args.entries[k] == full[cut];
    forall m | Agree(log, full, m)
      ensures Agree(log, log', m)
    {
      assert m <= cut;
    }
  }

  lemma PrefixFromLeaders(h: History, log: Log, full: Log)
    requires FromLeaders(h, full) && Agree(log, full, |log|)
    ensures FromLeaders(h, log)
  {
    forall i | 0 <= i < |log|
      ensures Rooted(h, log, i)
    {
      assert log[i] == full[i] && Rooted(h, full, i);
      AgreeShorter(log, full, |log|, i + 1);
      AgreeTrans(log, full, ReignLog(h, full[i].term), i + 1);
    }
  }

  /** What was acknowledged to earlier leaders stays, or the present leader started without it. */
  lemma AcksSurviveMerge(h: History, ids: set<NodeId>, s: NodeState, log': Log, term: nat)
    requires HistoryOk(h, ids) && NodeKept(h, s) && s.currentTerm == term && term in h.reigns
    requires forall k | Agree(s.log, ReignLog(h, term), k) :: Agree(s.log, log', k)
    ensures forall t: nat, i: nat | Acked(h, s.id, t, i) :: t <= term && Kept(h, log', t, i, term)
  {
    var full, base := ReignLog(h, term), h.reigns[term].base;
    assert ReignOk(h, ids, term);
    forall t: nat, i: nat | Acked(h, s.id, t, i)
      ensures t <= term && Kept(h, log', t, i, term)
    {
      var early := ReignLog(h, t);
      if Agree(early, s.log, i + 1) {
        AgreeThrough(s.log, early, full, i + 1);
        AgreeThrough(early, s.log, log', i + 1);
        if t < term && !Agree(early, log', i + 1) {
          BaseWithin(early, base, full, i + 1);
          assert term in h.reigns && !Agree(early, h.reigns[term].base, i + 1);
        }
      }
    }
  }

  lemma BaseWithin(a: Log, base: Log, full: Log, k: int)
    requires Agree(base, full, |base|)
    ensures Agree(a, base, k) ==> Agree(a, full, k)
  {}

  /** Everything about a follower that took entries up to index `e`, before the acknowledgement is noted. */
  ghost predicate Taken(h: History, s: NodeState, s': NodeState, e: nat) {
    && s' == s.(log := s'.log, commitIndex := s'.commitIndex, applySignal := s'.applySignal)
    && FromLeaders(h, s'.log) && TermsBelow(s'.log, s.currentTerm + 1)
    && Agree(s'.log, ReignLog(h, s.currentTerm), e + 1)
    && AcksKept(h, s, s'.log)
    && DeliveryOk(s') && CommittedUpTo(h, s.currentTerm, s'.log, s'.commitIndex)
  }

  ghost predicate AcksKept(h: History, s: NodeState, log: Log) {
    forall t: nat, i: nat | Acked(h, s.id, t, i) :: t <= s.currentTerm && Kept(h, log, t, i, s.currentTerm)
  }

  lemma TakenLogOk(h: History, ids: set<NodeId>, s: NodeState, s': NodeState, call: AppendCall)
    requires HistoryOk(h, ids) && NodeOk(h, ids, s)
    requires AppendCallOk(h, ids, call) && s.currentTerm == call.args.term && LogAccepts(s.log, call.args)
    requires s' == TakeAppend(s, call.args)
    ensures Taken(h, s, s', call.args.prevLogIndex + |call.args.entries|)
  {
    MergedLogOk(h, ids, s, s', call);
    MergedAcksOk(h, ids, s, s', call);
    MergedCommitsOk(h, ids, s, s', call);
  }

  lemma MergedCommitsOk(h: History, ids: set<NodeId>, s: NodeState, s': NodeState, call: AppendCall)
    requires HistoryOk(h, ids) && NodeOk(h, ids, s)
    requires AppendCallOk(h, ids, call) && s.currentTerm == call.args.term && LogAccepts(s.log, call.args)
    requires s' == TakeAppend(s, call.args)
    ensures DeliveryOk(s') && CommittedUpTo(h, s.currentTerm, s'.log, s'.commitIndex)
  {
    CallMerged(h, ids, s, s', call);
    MergeKeepsCommits(h, ids, s, s', call);
  }

  lemma CallMerged(h: History, ids: set<NodeId>, s: NodeState, s': NodeState, call: AppendCall)
    requires HistoryOk(h, ids) && NodeOk(h, ids, s)
    requires AppendCallOk(h, ids, call) && s.currentTerm == call.args.term && LogAccepts(s.log, call.args)
    requires s' == TakeAppend(s, call.args)
    ensures FromLeaders(h, s'.log)
    ensures TakenIn(s.log, ReignLog(h, s.currentTerm), s'.log, call.args.prevLogIndex + |call.args.entries| + 1)
  {
    ReignLogFromLeaders(h, ids, s.currentTerm);
    MergedLog(h, s.log, call.args, ReignLog(h, s.currentTerm), s'.log);
  }

  lemma MergedLogOk(h: History, ids: set<NodeId>, s: NodeState, s': NodeState, call: AppendCall)
    requires HistoryOk(h, ids) && NodeOk(h, ids, s)
    requires AppendCallOk(h, ids, call) && s.currentTerm == call.args.term && LogAccepts(s.log, call.args)
    requires s' == TakeAppend(s, call.args)
    ensures FromLeaders(h, s'.log) && TermsBelow(s'.log, s.currentTerm + 1)
    ensures Agree(s'.log, ReignLog(h, s.currentTerm), call.args.prevLogIndex + |call.args.entries| + 1)
  {
    CallMerged(h, ids, s, s', call);
    MergedTerms(h, ids, s'.log, s.currentTerm, s.log, call.args.prevLogIndex + |call.args.entries|);
  }

  lemma MergedAcksOk(h: History, ids: set<NodeId>, s: NodeState, s': NodeState, call: AppendCall)
    requires HistoryOk(h, ids) && NodeOk(h, ids, s)
    requires AppendCallOk(h, ids, call) && s.currentTerm == call.args.term && LogAccepts(s.log, call.args)
    requires s' == TakeAppend(s, call.args)
    ensures AcksKept(h, s, s'.log)
  {
    CallMerged(h, ids, s, s', call);
    AcksSurviveMerge(h, ids, s, s'.log, s.currentTerm);
  }

  lemma TakeAppendOk(h: History, h': History, ids: set<NodeId>, s: NodeState, s': NodeState, call: AppendCall)
    requires HistoryOk(h, ids) && NodeOk(h, ids, s)
    requires AppendCallOk(h, ids, call) && call.dst == s.id
    requires s.role == Follower && s.currentTerm == call.args.term && LogAccepts(s.log, call.args)
    requires s' == TakeAppend(s, call.args)
    requires h' == RecordAck(h, s.id, s.currentTerm, call.args.prevLogIndex + |call.args.entries|)
    ensures Grows(h, h', s.id) && HistoryOk(h', ids) && NodeOk(h', ids, s')
    ensures Acked(h', s.id, s.currentTerm, call.args.prevLogIndex + |call.args.entries|)
  {
    var e := call.args.prevLogIndex + |call.args.entries|;
    TakenLogOk(h, ids, s, s', call);
    NotedOk(h, h', ids, s, s', e);
  }

  lemma NotedOk(h: History, h': History, ids: set<NodeId>, s: NodeState, s': NodeState, e: nat)
    requires HistoryOk(h, ids) && NodeOk(h, ids, s)
    requires s.role == Follower && Taken(h, s, s', e)
    requires h' == RecordAck(h, s.id, s.currentTerm, e)
    ensures Grows(h, h', s.id) && HistoryOk(h', ids) && NodeOk(h', ids, s')
    ensures Acked(h', s.id, s.currentTerm, e)
  {
    RecordedAckOk(h, h', ids, s.id, s.currentTerm, e);
    NewAckKept(h, h', ids, s, s', s.currentTerm, e);
    AcceptedNodeOk(h, h', ids, s, s');
  }

  lemma AcceptedNodeOk(h: History, h': History, ids: set<NodeId>, s: NodeState, s': NodeState)
    requires NodeOk(h, ids, s) && Grows(h, h', s.id) && h'.votes == h.votes
    requires s' == s.(log := s'.log, commitIndex := s'.commitIndex, applySignal := s'.applySignal) && s.role == Follower
    requires FromLeaders(h, s'.log) && TermsBelow(s'.log, s'.currentTerm + 1)
    requires NodeKept(h', s') && DeliveryOk(s') && CommittedUpTo(h, s'.currentTerm, s'.log, s'.commitIndex)
    ensures NodeOk(h', ids, s')
  {
    CommittedGrows(h, h', s'.currentTerm, s'.currentTerm, s'.log, s'.commitIndex);
    FromLeadersGrows(h, h', s'.log);
  }

  lemma MergedTerms(h: History, ids: set<NodeId>, log': Log, term: nat, log: Log, e: nat)
    requires HistoryOk(h, ids) && term in h.reigns
    requires Agree(log', ReignLog(h, term), e + 1)
    requires log' == log || |log'| == e + 1
    requires TermsBelow(log, term + 1)
    ensures TermsBelow(log', term + 1)
  {
    assert ReignOk(h, ids, term);
    forall i | 0 <= i < |log'|
      ensures log'[i].term < term + 1
    {
      if log' != log { assert log'[i] == ReignLog(h, term)[i]; }
    }
  }

  lemma NewAckKept(h: History, h': History, ids: set<NodeId>, s: NodeState, s': NodeState, term: nat, e: nat)
    requires AcksOk(h, ids) && Grows(h, h', s.id) && h' == RecordAck(h, s.id, term, e)
    requires s'.id == s.id && s'.currentTerm == term
    requires Agree(s'.log, ReignLog(h, term), e + 1)
    requires forall t: nat, i: nat | Acked(h, s.id, t, i) :: t <= term && Kept(h, s'.log, t, i, term)
    ensures NodeKept(h', s')
  {
    forall t: nat, i: nat | Acked(h', s.id, t, i)
      ensures t <= term && Kept(h', s'.log, t, i, term)
    {
      if Acked(h, s.id, t, i) {
        KeptGrows(h, h', s'.log, t, i, term);
      } else {
        AgreeShorter(s'.log, ReignLog(h, term), e + 1, i + 1);
        assert Agree(ReignLog(h', t), s'.log, i + 1);
      }
    }
  }

  /** Taking entries never touches what is committed, and the new commit index
      covers verified entries only. */
  lemma MergeKeepsCommits(h: History, ids: set<NodeId>, s: NodeState, s': NodeState, call: AppendCall)
    requires HistoryOk(h, ids) && DeliveryOk(s) && CommittedUpTo(h, s.currentTerm, s.log, s.commitIndex)
    requires AppendCallOk(h, ids, call) && s.currentTerm == call.args.term && LogAccepts(s.log, call.args)
    requires s' == TakeAppend(s, call.args)
    requires TakenIn(s.log, ReignLog(h, call.args.term), s'.log, call.args.prevLogIndex + |call.args.entries| + 1)
    ensures DeliveryOk(s') && CommittedUpTo(h, s'.currentTerm, s'.log, s'.commitIndex)
    ensures call.args.leaderCommit > s.commitIndex ==> s'.commitIndex == call.args.leaderCommit
  {
    var args, full := call.args, ReignLog(h, call.args.term);
    CommittedInLeaderLog(h, ids, s.currentTerm, s.log, s.commitIndex, args.term);
    assert Agree(s.log, s'.log, s.commitIndex + 1);
    SamePrefix(s.log, s'.log, s.commitIndex + 1, s.lastApplied + 1);
    if args.leaderCommit > s.commitIndex {
      AgreeShorter(s'.log, full, args.prevLogIndex + |args.entries| + 1, args.leaderCommit + 1);
      assert Agree(full, s'.log, args.leaderCommit + 1);
      CommittedAlong(h, args.term, full, s'.log, args.leaderCommit);
    } else {
      CommittedAlong(h, s.currentTerm, s.log, s'.log, s.commitIndex);
    }
  }

  lemma SamePrefix(a: Log, b: Log, k: nat, m: nat)
    requires Agree(a, b, k) && 1 <= m <= k
    ensures a[1..m] == b[1..m]
  {
    forall j | 0 <= j < m - 1 ensures a[1..m][j] == b[1..m][j] { assert a[j + 1] == b[j + 1]; }
  }

  lemma ServeAppendOk(h: History, h': History, ids: set<NodeId>, s: NodeState, s': NodeState,
                      call: AppendCall, reply: AppendEntriesReply)
    requires HistoryOk(h, ids) && NodeOk(h, ids, s)
    requires AppendCallOk(h, ids, call) && call.dst == s.id
    requires (s', reply) == HandleAppendEntries(s, call.args)
    requires h' == if reply.success then RecordAck(h, s.id, call.args.term, call.args.prevLogIndex + |call.args.entries|) else h
    ensures Grows(h, h', s.id) && HistoryOk(h', ids) && NodeOk(h', ids, s') && AppendReplyOk(h', call, reply)
  {
    GrowsReflexive(h, s.id);
    if call.args.term >= s.currentTerm {
      FollowsOk(h, ids, s, call.args);
      if LogAccepts(s.log, call.args) {
        TakeAppendOk(h, h', ids, Follow(s, call.args), s', call);
      }
    }
  }

  lemma FollowsOk(h: History, ids: set<NodeId>, s: NodeState, args: AppendEntriesArgs)
    requires HistoryOk(h, ids) && NodeOk(h, ids, s) && args.term >= s.currentTerm
    ensures NodeOk(h, ids, Follow(s, args))
    ensures var s' := Follow(s, args); s'.role == Follower && s'.currentTerm == args.term && s'.log == s.log && s'.id == s.id
  {
    SeeTermOk(h, ids, s, args.term);
    FollowOk(h, ids, SeeTerm(s, args.term), args.leaderId);
  }

  lemma FollowOk(h: History, ids: set<NodeId>, s: NodeState, leaderId: NodeId)
    requires NodeOk(h, ids, s)
    ensures NodeOk(h, ids, s.(role := Follower, leaderId := leaderId))
  {
    assert forall t: nat, i: nat | Acked(h, s.id, t, i) :: t <= s.currentTerm && Kept(h, s.log, t, i, s.currentTerm);
  }

  // ---------- sending entries ----------

  /** The whole suffix is always sent, so the commit index sent with it never reaches past it. */
  lemma SendAppendOk(h: History, ids: set<NodeId>, s: NodeState, peer: NodeId, number: nat)
    requires HistoryOk(h, ids) && NodeOk(h, ids, s)
    requires s.role == Leader && peer in s.peers
    ensures CanReplicate(s, peer)
    ensures AppendCallOk(h, ids, AppendCall(number, s.id, peer, AppendRequest(s, peer)))
  {
    assert PeerOk(h, s, peer);
    var args := AppendRequest(s, peer);
    assert args.prevLogIndex + |args.entries| == |s.log| - 1;
    assert ReignLog(h, s.currentTerm) == s.log;
  }

  // ---------- replies ----------

  lemma OneMoreHolder(front: seq<NodeId>, last: NodeId, matchIndex: map<NodeId, nat>, n: nat)
    requires last !in front
    ensures var rest := set p | p in front && p in matchIndex && matchIndex[p] >= n;
            var all := set p | p in front + [last] && p in matchIndex && matchIndex[p] >= n;
            |all| == |rest| + if last in matchIndex && matchIndex[last] >= n then 1 else 0
  {
    var rest := set p | p in front && p in matchIndex && matchIndex[p] >= n;
    var all := set p | p in front + [last] && p in matchIndex && matchIndex[p] >= n;
    assert all == rest + if last in matchIndex && matchIndex[last] >= n then {last} else {};
  }

  lemma {:induction false} CountIsSize(peers: seq<NodeId>, matchIndex: map<NodeId, nat>, n: nat)
    requires forall i, j | 0 <= i < j < |peers| :: peers[i] != peers[j]
    ensures |set p | p in peers && p in matchIndex && matchIndex[p] >= n| == CountAtLeast(peers, matchIndex, n)
  {
    var holders := set p | p in peers && p in matchIndex && matchIndex[p] >= n;
    if peers == [] {
      assert holders == {};
    } else {
      var front, last := peers[..|peers| - 1], Last'(peers);
      CountIsSize(front, matchIndex, n);
      OneMoreHolder(front, last, matchIndex, n);
      assert peers == front + [last];
    }
  }

  lemma HoldersAreMajority(h: History, ids: set<NodeId>, s: NodeState, n: nat)
    requires s.id in ids && PeersOf(ids, s.id, s.peers)
    requires s.role == Leader && LeaderOk(h, s)
    requires Committable(s, n) && n > 0
    ensures Majority(Holders(s, n), ids)
    ensures forall m | m in Holders(s, n) :: Acked(h, m, s.currentTerm, n)
  {
    GroupSize(ids, s.id, s.peers);
    CountIsSize(s.peers, s.matchIndex, n);
    var others := set p | p in s.peers && p in s.matchIndex && s.matchIndex[p] >= n;
    assert s.id !in others;
    forall m | m in Holders(s, n)
      ensures Acked(h, m, s.currentTerm, n)
    {
      if m in s.peers { assert PeerOk(h, s, m); }
    }
  }

  lemma AdvanceOk(h: History, ids: set<NodeId>, s: NodeState)
    requires HistoryOk(h, ids) && NodeOk(h, ids, s) && s.role == Leader
    ensures var s' := AdvanceCommitIndex(s);
            var h' := RecordAdvance(h, s, s');
            Grows(h, h', s.id) && HistoryOk(h', ids) && NodeOk(h', ids, s')
  {
    var s' := AdvanceCommitIndex(s);
    GrowsReflexive(h, s.id);
    if s'.commitIndex > s.commitIndex {
      var n := s'.commitIndex;
      var h' := RecordAdvance(h, s, s');
      HoldersAreMajority(h, ids, s, n);
      assert Holders(s', n) == Holders(s, n);
      RecordedCommitOk(h, h', ids, s.id, s.currentTerm, n, Holders(s, n));
      CommittedNow(h', s, n);
      AdvancedNodeOk(h, h', ids, s, s');
    }
  }

  lemma AdvancedNodeOk(h: History, h': History, ids: set<NodeId>, s: NodeState, s': NodeState)
    requires AcksOk(h, ids) && NodeOk(h, ids, s) && s.role == Leader
    requires Grows(h, h', s.id) && h' == h.(commits := h'.commits)
    requires s' == s.(commitIndex := s'.commitIndex, applySignal := true) && s.commitIndex <= s'.commitIndex < |s.log|
    requires CommittedUpTo(h', s.currentTerm, s.log, s'.commitIndex)
    ensures NodeOk(h', ids, s')
  {
    FromLeadersGrows(h, h', s.log);
    NodeKeptSameAcks(h, h', ids, s, s');
    forall p | p in s.peers ensures PeerOk(h', s', p) { assert PeerOk(h, s, p); }
  }

  lemma CommittedNow(h: History, s: NodeState, n: nat)
    requires s.currentTerm in h.reigns && h.reigns[s.currentTerm].log == s.log && n < |s.log|
    requires (s.currentTerm, n) in h.commits
    ensures CommittedUpTo(h, s.currentTerm, s.log, n)
  {
    assert Agree(ReignLog(h, s.currentTerm), s.log, n + 1);
  }

  /** A leader that became `s'`, with the history noting what it committed, is as it should be. */
  ghost predicate AdvancesOk(h: History, ids: set<NodeId>, s: NodeState, s': NodeState) {
    var h' := RecordAdvance(h, s, s');
    Grows(h, h', s.id) && HistoryOk(h', ids) && NodeOk(h', ids, s')
  }

  lemma QuietIsOk(h: History, ids: set<NodeId>, s: NodeState, s': NodeState)
    requires HistoryOk(h, ids) && NodeOk(h, ids, s') && s'.commitIndex == s.commitIndex
    ensures AdvancesOk(h, ids, s, s')
  {
    GrowsReflexive(h, s.id);
  }

  lemma AppendReplyOkAfter(h: History, ids: set<NodeId>, s: NodeState, call: AppendCall, reply: AppendEntriesReply)
    requires HistoryOk(h, ids) && NodeOk(h, ids, s)
    requires AppendCallOk(h, ids, call) && call.src == s.id && AppendReplyOk(h, call, reply)
    ensures s.role == Leader ==> CanReplicate(s, call.dst)
    ensures AdvancesOk(h, ids, s, ReceiveAppendReply(s, call.dst, call.args, reply))
  {
    assert s.role == Leader ==> PeerOk(h, s, call.dst);
    if reply.term > s.currentTerm {
      SeeTermOk(h, ids, s, reply.term);
      QuietIsOk(h, ids, s, BecomeFollower(s, reply.term));
    } else if s.role == Leader && s.currentTerm == call.args.term && reply.success {
      SuccessOk(h, ids, s, call, reply);
    } else {
      if s.role == Leader {
        BackUpOk(h, ids, s, call.dst);
      }
      QuietIsOk(h, ids, s, ReceiveAppendReply(s, call.dst, call.args, reply));
    }
  }

  lemma SuccessOk(h: History, ids: set<NodeId>, s: NodeState, call: AppendCall, reply: AppendEntriesReply)
    requires HistoryOk(h, ids) && NodeOk(h, ids, s)
    requires AppendCallOk(h, ids, call) && call.src == s.id && AppendReplyOk(h, call, reply)
    requires s.role == Leader && s.currentTerm == call.args.term && reply.success && reply.term <= s.currentTerm
    requires CanReplicate(s, call.dst)
    ensures AdvancesOk(h, ids, s, ReceiveAppendReply(s, call.dst, call.args, reply))
  {
    var p := call.dst;
    var m := call.args.prevLogIndex + |call.args.entries|;
    var s1 := s.(matchIndex := s.matchIndex[p := m], nextIndex := s.nextIndex[p := m + 1]);
    assert ReceiveAppendReply(s, p, call.args, reply) == AdvanceCommitIndex(s1);
    assert PeerOk(h, s1, p);
    BookkeepingOk(h, ids, s, s1, p);
    AdvanceOk(h, ids, s1);
    SameAdvance(h, s, s1, AdvanceCommitIndex(s1));
  }

  lemma SameAdvance(h: History, s: NodeState, s1: NodeState, s': NodeState)
    requires s1.commitIndex == s.commitIndex
    ensures RecordAdvance(h, s1, s') == RecordAdvance(h, s, s')
  {}

  lemma BackUpOk(h: History, ids: set<NodeId>, s: NodeState, p: NodeId)
    requires NodeOk(h, ids, s) && s.role == Leader && p in s.peers
    ensures p in s.nextIndex && (s.nextIndex[p] > 1 ==> NodeOk(h, ids, s.(nextIndex := s.nextIndex[p := s.nextIndex[p] - 1])))
  {
    assert PeerOk(h, s, p);
    if s.nextIndex[p] > 1 {
      var s' := s.(nextIndex := s.nextIndex[p := s.nextIndex[p] - 1]);
      assert PeerOk(h, s', p);
      BookkeepingOk(h, ids, s, s', p);
    }
  }

  lemma BookkeepingOk(h: History, ids: set<NodeId>, s: NodeState, s': NodeState, p: NodeId)
    requires NodeOk(h, ids, s) && s.role == Leader && p in s.peers
    requires s' == s.(nextIndex := s'.nextIndex, matchIndex := s'.matchIndex)
    requires forall q | q in s.peers && q != p :: q in s.nextIndex && q in s.matchIndex ==>
               q in s'.nextIndex && q in s'.matchIndex && s'.nextIndex[q] == s.nextIndex[q] && s'.matchIndex[q] == s.matchIndex[q]
    requires PeerOk(h, s', p)
    ensures NodeOk(h, ids, s')
  {
    forall q | q in s.peers ensures PeerOk(h, s', q) { assert PeerOk(h, s, q); }
    assert forall t: nat, i: nat | Acked(h, s.id, t, i) :: t <= s.currentTerm && Kept(h, s.log, t, i, s.currentTerm);
  }

  // ---------- delivery ----------

  lemma ApplyOk(h: History, ids: set<NodeId>, s: NodeState)
    requires NodeOk(h, ids, s)
    ensures NodeOk(h, ids, Apply(s))
    ensures Apply(s).lastApplied == s.commitIndex
  {
    DrainOk(s);
    SameBeliefs(h, ids, s, Apply(s));
  }

  lemma DrainOk(s: NodeState)
    requires DeliveryOk(s)
    ensures DeliveryOk(Apply(s))
    ensures Apply(s).lastApplied == s.commitIndex
  {
    assert s.log[1..s.lastApplied + 1] + s.log[s.lastApplied + 1..s.commitIndex + 1] == s.log[1..s.commitIndex + 1];
  }

  /** Delivery state and liveness of tasks are no part of what the group knows about a node. */
  lemma SameBeliefs(h: History, ids: set<NodeId>, s: NodeState, s': NodeState)
    requires NodeOk(h, ids, s) && DeliveryOk(s')
    requires s' == s.(lastApplied := s'.lastApplied, applied := s'.applied, applySignal := s'.applySignal, running := s'.running)
    ensures NodeOk(h, ids, s')
  {
    assert LogOk(h, s') && BallotOk(h, s') && CandidateOk(h, ids, s');
    assert NodeKept(h, s') by {
      assert forall t: nat, i: nat | Acked(h, s.id, t, i) :: t <= s.currentTerm && Kept(h, s.log, t, i, s.currentTerm);
    }
    assert LeaderOk(h, s') by {
      if s.role == Leader {
        forall p | p in s.peers ensures PeerOk(h, s', p) { assert PeerOk(h, s, p); }
      }
    }
  }
}
