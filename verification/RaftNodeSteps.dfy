/** What a step does to the acting node keeps what is known about that node. */
module RaftNodeSteps {
  import opened RaftTypes
  import opened RaftSpec
  import opened RaftCluster
  import opened RaftInvariant
  import opened RaftFrames
  import opened RaftHistorySteps
  import opened RaftCompleteness

  /** The node's log may have grown and its term risen; its own acks are as before. */
  lemma NodeKeptMoves(h: History, h': History, ids: set<NodeId>, s: NodeState, s': NodeState)
    requires AcksOk(h, ids) && NodeKept(h, s) && Grows(h, h', s.id)
    requires s'.id == s.id && s'.currentTerm >= s.currentTerm && s.log <= s'.log
    requires forall t: nat, i: nat | Acked(h', s.id, t, i) ::
               Acked(h, s.id, t, i) || (t <= s'.currentTerm && Agree(ReignLog(h', t), s'.log, i + 1))
    ensures NodeKept(h', s')
  {
    forall t: nat, i: nat | Acked(h', s.id, t, i)
      ensures t <= s'.currentTerm && Kept(h', s'.log, t, i, s'.currentTerm)
    {
      if Acked(h, s.id, t, i) {
        KeptGrows(h, h', s.log, t, i, s.currentTerm);
        KeptWiden(h', s.log, t, i, s.currentTerm, s'.currentTerm);
        if Agree(ReignLog(h', t), s.log, i + 1) {
          assert Agree(ReignLog(h', t), s'.log, i + 1);
        }
      }
    }
  }

  lemma NodeKeptSameAcks(h: History, h': History, ids: set<NodeId>, s: NodeState, s': NodeState)
    requires AcksOk(h, ids) && NodeKept(h, s) && Grows(h, h', s.id) && h'.acks == h.acks
    requires s'.id == s.id && s'.currentTerm >= s.currentTerm && s.log == s'.log
    ensures NodeKept(h', s')
  {
    forall t: nat, i: nat | Acked(h', s.id, t, i)
      ensures Acked(h, s.id, t, i)
    {}
    NodeKeptMoves(h, h', ids, s, s');
  }

  lemma SeeTermOk(h: History, ids: set<NodeId>, s: NodeState, term: nat)
    requires HistoryOk(h, ids) && NodeOk(h, ids, s)
    ensures NodeOk(h, ids, SeeTerm(s, term))
  {
    var s' := SeeTerm(s, term);
    GrowsReflexive(h, s.id);
    NodeKeptSameAcks(h, h, ids, s, s');
    CommittedGrows(h, h, s.currentTerm, s'.currentTerm, s.log, s.commitIndex);
  }

  // ---------- elections ----------

  lemma ElectionTimeoutOk(h: History, ids: set<NodeId>, s: NodeState)
    requires HistoryOk(h, ids) && NodeOk(h, ids, s) && NOBODY !in ids
    ensures var s' := StartElection(s);
            var h' := RecordCandidacy(h, s.id, s'.currentTerm, s'.log);
            Grows(h, h', s.id) && HistoryOk(h', ids) && NodeOk(h', ids, s')
  {
    var s' := StartElection(s);
    var h' := RecordCandidacy(h, s.id, s'.currentTerm, s'.log);
    GrowsReflexive(h, s.id);
    NodeKeptSameAcks(h, h, ids, s, s');
    RecordedVoteOk(h, h', ids, s', s.id);
    FromLeadersGrows(h, h', s.log);
    NodeKeptSameAcks(h, h', ids, s, s');
    CommittedGrows(h, h', s.currentTerm, s'.currentTerm, s.log, s.commitIndex);
    NoReignYet(h, ids, s);
    assert LogOk(h', s');
    assert BallotOk(h', s');
    assert CandidateOk(h', ids, s');
  }

  /** A node has led no term beyond its own. */
  lemma NoReignYet(h: History, ids: set<NodeId>, s: NodeState)
    requires HistoryOk(h, ids) && BallotOk(h, s)
    ensures forall t | t in h.reigns && t > s.currentTerm :: h.reigns[t].leader != s.id
  {
    forall t | t in h.reigns && t > s.currentTerm
      ensures h.reigns[t].leader != s.id
    {
      assert ReignOk(h, ids, t);
      assert VotedFor(h, h.reigns[t].leader, t, h.reigns[t].leader);
      assert (s.id, t) !in h.votes;
    }
  }

  /** A vote is only granted to a log of earlier terms, so the voter's log is of earlier terms too. */
  lemma GrantedMeansOlder(h: History, ids: set<NodeId>, s: NodeState, call: VoteCall)
    requires HistoryOk(h, ids) && LogOk(h, s)
    requires VoteCallOk(h, ids, call) && Grants(s, call.args)
    ensures TermsBelow(s.log, s.currentTerm) && s.currentTerm > 0
    ensures var own := h.votes[(call.src, call.args.term)].log;
            Last(own).term > Last(s.log).term || (Last(own).term == Last(s.log).term && |own| >= |s.log|)
  {
    var own := h.votes[(call.src, call.args.term)].log;
    assert VoteOk(h, ids, call.src, call.args.term);
    LogFacts(h, ids, own);
    LogFacts(h, ids, s.log);
  }

  lemma LeaderHasVoted(h: History, ids: set<NodeId>, s: NodeState)
    requires HistoryOk(h, ids) && NOBODY !in ids && s.id in ids
    requires LeaderOk(h, s) && BallotOk(h, s)
    ensures s.role == Leader ==> s.votedFor == s.id
  {
    if s.role == Leader {
      assert ReignOk(h, ids, s.currentTerm);
      assert VotedFor(h, s.id, s.currentTerm, s.id);
    }
  }

  lemma GrantOk(h: History, ids: set<NodeId>, s: NodeState, call: VoteCall)
    requires HistoryOk(h, ids) && NodeOk(h, ids, s) && NOBODY !in ids
    requires VoteCallOk(h, ids, call) && call.dst == s.id && Grants(s, call.args)
    ensures var s' := s.(votedFor := call.args.candidateId);
            var h' := RecordVote(h, s.id, call.args.term, call.args.candidateId, s.log);
            && Grows(h, h', s.id) && HistoryOk(h', ids) && NodeOk(h', ids, s')
            && VotedFor(h', s.id, call.args.term, call.src)
  {
    var s' := s.(votedFor := call.args.candidateId);
    var h' := RecordVote(h, s.id, call.args.term, call.args.candidateId, s.log);
    GrantedMeansOlder(h, ids, s, call);
    if s.votedFor == NOBODY {
      RecordedVoteOk(h, h', ids, s, call.src);
      FromLeadersGrows(h, h', s.log);
      NodeKeptSameAcks(h, h', ids, s, s');
      CommittedGrows(h, h', s.currentTerm, s.currentTerm, s.log, s.commitIndex);
      LeaderHasVoted(h, ids, s);
      assert LogOk(h', s');
      assert BallotOk(h', s');
      assert CandidateOk(h', ids, s');
      assert LeaderOk(h', s');
    } else {
      GrowsReflexive(h, s.id);
      assert h' == h && s' == s;
    }
  }

  lemma ServeVoteOk(h: History, ids: set<NodeId>, s: NodeState, call: VoteCall)
    requires HistoryOk(h, ids) && NodeOk(h, ids, s) && NOBODY !in ids
    requires VoteCallOk(h, ids, call) && call.dst == s.id
    ensures var (s', reply) := HandleRequestVote(s, call.args);
            var h' := if reply.voteGranted then RecordVote(h, s.id, call.args.term, call.args.candidateId, s'.log) else h;
            && Grows(h, h', s.id) && HistoryOk(h', ids) && NodeOk(h', ids, s')
            && VoteReplyOk(h', call, reply)
  {
    var s1 := SeeTerm(s, call.args.term);
    SeeTermOk(h, ids, s, call.args.term);
    if Grants(s1, call.args) {
      GrantOk(h, ids, s1, call);
    } else {
      GrowsReflexive(h, s.id);
    }
  }

  lemma VoteReplyOkAfter(h: History, h': History, ids: set<NodeId>, s: NodeState, s': NodeState,
                         call: VoteCall, reply: RequestVoteReply)
    requires HistoryOk(h, ids) && NodeOk(h, ids, s) && NOBODY !in ids
    requires VoteCallOk(h, ids, call) && call.src == s.id && VoteReplyOk(h, call, reply)
    requires s.role == Candidate && s.currentTerm == call.args.term ==> call.dst !in Tally(h, s.id)
    requires s' == ReceiveVoteReply(s, call.args.term, reply)
    requires h' == RecordVoteReply(h, s, call, reply)
    ensures Grows(h, h', s.id) && HistoryOk(h', ids) && NodeOk(h', ids, s')
  {
    GrowsReflexive(h, s.id);
    if reply.term > s.currentTerm {
      SeeTermOk(h, ids, s, reply.term);
    } else if CountsVote(s, call.args.term, reply) {
      var counted := s.(votes := s.votes + 1);
      var h1 := RecordCount(h, s.id, call.dst);
      CountOk(h, h1, ids, s, counted, call.dst);
      if counted.votes >= MajoritySize(s.peers) {
        VictoryOk(h1, h', ids, counted, s');
        GrowsTrans(h, h1, h', s.id);
      }
    }
  }

  lemma GrowsTrans(h: History, h1: History, h2: History, n: NodeId)
    requires Grows(h, h1, n) && Grows(h1, h2, n)
    requires h1.reigns == h.reigns && h1.votes == h.votes && h1.acks == h.acks && h1.commits == h.commits
    ensures Grows(h, h2, n)
  {}

  lemma CountOk(h: History, h': History, ids: set<NodeId>, s: NodeState, s': NodeState, voter: NodeId)
    requires HistoryOk(h, ids) && NodeOk(h, ids, s)
    requires s.role == Candidate && VotedFor(h, voter, s.currentTerm, s.id) && voter in ids && voter !in Tally(h, s.id)
    requires h' == RecordCount(h, s.id, voter) && s' == s.(votes := s.votes + 1)
    ensures Grows(h, h', s.id) && HistoryOk(h', ids) && NodeOk(h', ids, s')
  {
    CountGrows(h, h', s.id, voter);
    HistoryFrame(h, h', ids, s.id);
    FromLeadersGrows(h, h', s.log);
    NodeKeptSameAcks(h, h', ids, s, s');
    CommittedGrows(h, h', s.currentTerm, s.currentTerm, s.log, s.commitIndex);
    CountedCandidateOk(h, h', ids, s, s', voter);
  }

  lemma CountGrows(h: History, h': History, n: NodeId, voter: NodeId)
    requires h' == RecordCount(h, n, voter)
    ensures Grows(h, h', n) && AcksAreCurrent(h, h') && ReignsAppend(h, h')
  {
    assert forall r | r in h.reigns :: ReignExtends(h.reigns[r], h'.reigns[r]);
  }

  lemma CountedCandidateOk(h: History, h': History, ids: set<NodeId>, s: NodeState, s': NodeState, voter: NodeId)
    requires CandidateOk(h, ids, s) && s.role == Candidate
    requires VotedFor(h, voter, s.currentTerm, s.id) && voter in ids && voter !in Tally(h, s.id)
    requires h' == RecordCount(h, s.id, voter) && s' == s.(votes := s.votes + 1)
    ensures CandidateOk(h', ids, s')
  {
    assert Tally(h', s.id) == Tally(h, s.id) + {voter};
    forall p | p in Tally(h', s.id)
      ensures p in ids && VotedFor(h', p, s.currentTerm, s.id)
    {
      assert p == voter || VotedFor(h, p, s.currentTerm, s.id);
    }
  }

  /** The peers and the node itself make up the group. */
  lemma GroupSize(ids: set<NodeId>, n: NodeId, peers: seq<NodeId>)
    requires n in ids && PeersOf(ids, n, peers)
    ensures |ids| == |peers| + 1
  {
    SeqSetSize(peers);
    assert ids == (set p | p in peers) + {n};
  }

  lemma {:induction false} SeqSetSize(s: seq<NodeId>)
    requires forall i, j | 0 <= i < j < |s| :: s[i] != s[j]
    ensures |set p | p in s| == |s|
  {
    if s != [] {
      var k := |s| - 1;
      SeqSetSize(s[..k]);
      assert (set p | p in s) == (set p | p in s[..k]) + {s[k]};
    }
  }

  lemma VictoryOk(h: History, h': History, ids: set<NodeId>, s: NodeState, s': NodeState)
    requires HistoryOk(h, ids) && NodeOk(h, ids, s) && NOBODY !in ids
    requires s.role == Candidate && s.votes >= MajoritySize(s.peers)
    requires s' == BecomeLeader(s) && h' == RecordVictory(h, s.id, s.currentTerm, s.log, s'.log)
    ensures Grows(h, h', s.id) && HistoryOk(h', ids) && NodeOk(h', ids, s')
  {
    GroupSize(ids, s.id, s.peers);
    assert Majority(Tally(h, s.id), ids);
    RecordedVictoryOk(h, h', ids, s, s'.log);
    LeaderLogOk(h', ids, s');
    VictoryKeeps(h, h', ids, s, s');
    VictoryLeads(h, h', ids, s, s');
  }

  lemma VictoryKeeps(h: History, h': History, ids: set<NodeId>, s: NodeState, s': NodeState)
    requires AcksOk(h, ids) && NodeOk(h, ids, s) && s.role == Candidate
    requires s' == BecomeLeader(s) && h' == RecordVictory(h, s.id, s.currentTerm, s.log, s'.log)
    requires Grows(h, h', s.id)
    ensures NodeKept(h', s') && CommittedUpTo(h', s.currentTerm, s'.log, s.commitIndex)
  {
    forall t: nat, i: nat | Acked(h', s.id, t, i)
      ensures Acked(h, s.id, t, i) || (t <= s'.currentTerm && Agree(ReignLog(h', t), s'.log, i + 1))
    {}
    NodeKeptMoves(h, h', ids, s, s');
    CommittedGrows(h, h', s.currentTerm, s.currentTerm, s.log, s.commitIndex);
    CommittedAlong(h', s.currentTerm, s.log, s'.log, s.commitIndex);
  }

  lemma VictoryLeads(h: History, h': History, ids: set<NodeId>, s: NodeState, s': NodeState)
    requires VotesOk(h, ids) && BallotOk(h, s) && CandidateOk(h, ids, s) && s.role == Candidate
    requires s' == BecomeLeader(s) && h' == RecordVictory(h, s.id, s.currentTerm, s.log, s'.log)
    ensures LeaderOk(h', s') && BallotOk(h', s')
  {
    assert VoteOk(h, ids, s.id, s.currentTerm);
    forall p | p in s'.peers ensures PeerOk(h', s', p) {}
  }

  lemma LeaderLogOk(h: History, ids: set<NodeId>, s: NodeState)
    requires HistoryOk(h, ids)
    requires s.currentTerm in h.reigns && h.reigns[s.currentTerm].log == s.log
    ensures LogOk(h, s)
  {
    assert ReignOk(h, ids, s.currentTerm);
    ReignLogFromLeaders(h, ids, s.currentTerm);
  }

  lemma ProposeOk(h: History, ids: set<NodeId>, s: NodeState, command: Command)
    requires HistoryOk(h, ids) && NodeOk(h, ids, s) && s.role == Leader
    ensures var s' := Propose(s, command);
            var h' := RecordProposal(h, s.id, s.currentTerm, s'.log);
            Grows(h, h', s.id) && HistoryOk(h', ids) && NodeOk(h', ids, s')
  {
    var s' := Propose(s, command);
    var h' := RecordProposal(h, s.id, s.currentTerm, s'.log);
    RecordedProposalOk(h, h', ids, s, command);
    LeaderLogOk(h', ids, s');
    NodeKeptMoves(h, h', ids, s, s') by {
      forall t: nat, i: nat | Acked(h', s.id, t, i)
        ensures Acked(h, s.id, t, i) || (t <= s'.currentTerm && Agree(ReignLog(h', t), s'.log, i + 1))
      {}
    }
    CommittedGrows(h, h', s.currentTerm, s.currentTerm, s.log, s.commitIndex);
    CommittedAlong(h', s.currentTerm, s.log, s'.log, s.commitIndex);
    assert BallotOk(h', s');
    assert LeaderOk(h', s') by {
      forall p | p in s'.peers ensures PeerOk(h', s', p) { assert PeerOk(h, s, p); }
    }
  }
}
