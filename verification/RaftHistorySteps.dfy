/** Each kind of note that the observer takes keeps the recorded history consistent. */
module RaftHistorySteps {
  import opened RaftTypes
  import opened RaftSpec
  import opened RaftCluster
  import opened RaftInvariant
  import opened RaftFrames

  /** New entries of a running reign carry its term and their own index. */
  ghost predicate ReignsAppend(h: History, h': History) {
    forall t, i | t in h.reigns && t in h'.reigns && |h.reigns[t].log| <= i < |h'.reigns[t].log| ::
      h'.reigns[t].log[i].index == i && h'.reigns[t].log[i].term == t
  }

  /** Acks are only added for terms that the node's votes have not passed. */
  ghost predicate AcksAreCurrent(h: History, h': History) {
    forall n, t, t0 | (n, t0) in h'.acks && (n, t) in h.votes && t0 < t :: (n, t0) in h.acks && h'.acks[(n, t0)] == h.acks[(n, t0)]
  }

  lemma ReignFrame(h: History, h': History, ids: set<NodeId>, n: NodeId, t: nat)
    requires ReignsOk(h, ids) && Grows(h, h', n) && ReignsAppend(h, h')
    requires t in h.reigns
    ensures ReignOk(h', ids, t)
  {
    var r, r' := h.reigns[t], h'.reigns[t];
    assert ReignOk(h, ids, t) && ReignExtends(r, r');
    FromLeadersGrows(h, h', r.base);
    assert Agree(r'.base, r'.log, |r'.base|) by {
      AgreeShorter(r.log, r'.log, |r.log|, |r.base|);
      AgreeTrans(r.base, r.log, r'.log, |r.base|);
    }
    forall i | 0 <= i < |r'.log|
      ensures r'.log[i].index == i && (if i < |r'.base| then r'.log[i].term < t else r'.log[i].term == t)
    {
      if i < |r.log| {
        assert r'.log[i] == r.log[i];
      }
    }
    if t > 0 {
      assert (r.leader, t) in h.votes;
      forall p | p in r.voters
        ensures VotedFor(h', p, t, r.leader)
      {
        assert VotedFor(h, p, t, r.leader) && (p, t) in h.votes;
      }
    }
  }

  lemma VoteFrame(h: History, h': History, ids: set<NodeId>, n: NodeId, m: NodeId, t: nat)
    requires VotesOk(h, ids) && Grows(h, h', n)
    requires (m, t) in h.votes
    ensures VoteOk(h', ids, m, t)
  {
    var v := h.votes[(m, t)];
    assert VoteOk(h, ids, m, t);
    assert (v.candidate, t) in h.votes;
    FromLeadersGrows(h, h', v.log);
  }

  lemma VoterKeptFrame(h: History, h': History, ids: set<NodeId>, n: NodeId, m: NodeId, t: nat)
    requires AcksOk(h, ids) && VotersKept(h) && Grows(h, h', n) && AcksAreCurrent(h, h')
    requires (m, t) in h.votes && MayCount(h', m, t)
    ensures VoterKept(h', m, t)
  {
    if t in h.reigns {
      assert ReignExtends(h.reigns[t], h'.reigns[t]);
    }
    assert MayCount(h, m, t) && VoterKept(h, m, t);
    forall t0: nat, i: nat | Acked(h', m, t0, i) && t0 < t
      ensures Kept(h', h'.votes[(m, t)].log, t0, i, t - 1)
    {
      assert Acked(h, m, t0, i);
      KeptGrows(h, h', h.votes[(m, t)].log, t0, i, t - 1);
    }
  }

  lemma CommitFrame(h: History, h': History, ids: set<NodeId>, n: NodeId, t: nat, i: nat)
    requires CommitsOk(h, ids) && Grows(h, h', n)
    requires (t, i) in h.commits && h'.commits[(t, i)] == h.commits[(t, i)]
    ensures CommitOk(h', ids, t, i)
  {
    assert CommitOk(h, ids, t, i);
    ReignLogGrows(h, h', t);
    forall m | m in h.commits[(t, i)]
      ensures Acked(h', m, t, i)
    {
      assert Acked(h, m, t, i) && (m, t) in h.acks;
    }
  }

  /** What remains to be shown of the new history is about its new parts only. */
  lemma HistoryFrame(h: History, h': History, ids: set<NodeId>, n: NodeId)
    requires HistoryOk(h, ids) && Grows(h, h', n) && ReignsAppend(h, h') && AcksAreCurrent(h, h')
    requires h'.reigns[0] == h.reigns[0]
    requires forall t | t in h'.reigns && t !in h.reigns :: ReignOk(h', ids, t)
    requires forall m, t | (m, t) in h'.votes && (m, t) !in h.votes ::
               VoteOk(h', ids, m, t) && (MayCount(h', m, t) ==> VoterKept(h', m, t))
    requires forall m, t | (m, t) in h'.acks && ((m, t) !in h.acks || h'.acks[(m, t)] != h.acks[(m, t)]) ::
               m in ids && h'.acks[(m, t)] < |ReignLog(h', t)|
    requires forall t, i | (t, i) in h'.commits && ((t, i) !in h.commits || h'.commits[(t, i)] != h.commits[(t, i)]) ::
               CommitOk(h', ids, t, i)
    ensures HistoryOk(h', ids)
  {
    forall t | t in h'.reigns ensures ReignOk(h', ids, t) {
      if t in h.reigns { ReignFrame(h, h', ids, n, t); }
    }
    forall m, t | (m, t) in h'.votes ensures VoteOk(h', ids, m, t) {
      if (m, t) in h.votes { VoteFrame(h, h', ids, n, m, t); }
    }
    forall m, t | (m, t) in h'.votes && MayCount(h', m, t) ensures VoterKept(h', m, t) {
      if (m, t) in h.votes { VoterKeptFrame(h, h', ids, n, m, t); }
    }
    forall m, t | (m, t) in h'.acks ensures m in ids && h'.acks[(m, t)] < |ReignLog(h', t)| {
      ReignLogGrows(h, h', t);
    }
    forall t, i | (t, i) in h'.commits ensures CommitOk(h', ids, t, i) {
      if (t, i) in h.commits && h'.commits[(t, i)] == h.commits[(t, i)] { CommitFrame(h, h', ids, n, t, i); }
    }
  }

  lemma GrowsReflexive(h: History, n: NodeId)
    ensures Grows(h, h, n)
  {}

  // ---------- a vote ----------

  /** Node `s` gives its first vote of its current term to `candidate`. */
  lemma RecordedVoteOk(h: History, h': History, ids: set<NodeId>, s: NodeState, candidate: NodeId)
    requires HistoryOk(h, ids)
    requires s.id in ids && s.currentTerm > 0 && LogOk(h, s) && TermsBelow(s.log, s.currentTerm)
    requires forall t :: (s.id, t) in h.votes ==> t < s.currentTerm
    requires NodeKept(h, s)
    requires h'.votes == h.votes[(s.id, s.currentTerm) := Vote(candidate, s.log)]
    requires h' == h.(votes := h'.votes, tallies := h'.tallies)
    requires forall m | m != s.id :: Tally(h', m) == Tally(h, m)
    requires candidate == s.id || VotedFor(h, candidate, s.currentTerm, candidate)
    requires var own := h'.votes[(candidate, s.currentTerm)].log;
             |own| > 0 && (Last(own).term > Last(s.log).term || (Last(own).term == Last(s.log).term && |own| >= |s.log|))
    ensures Grows(h, h', s.id) && HistoryOk(h', ids)
  {
    var n, t := s.id, s.currentTerm;
    assert Grows(h, h', n) by {
      assert forall r | r in h.reigns :: ReignExtends(h.reigns[r], h'.reigns[r]);
    }
    FromLeadersGrows(h, h', s.log);
    assert VoteOk(h', ids, n, t);
    if MayCount(h', n, t) {
      FirstVoteKept(h, h', ids, s, candidate);
    }
    HistoryFrame(h, h', ids, n);
  }

  lemma FirstVoteKept(h: History, h': History, ids: set<NodeId>, s: NodeState, candidate: NodeId)
    requires HistoryOk(h, ids)
    requires (s.id, s.currentTerm) !in h.votes && NodeKept(h, s)
    requires forall m | m != s.id :: Tally(h', m) == Tally(h, m)
    requires h'.votes == h.votes[(s.id, s.currentTerm) := Vote(candidate, s.log)]
    requires h' == h.(votes := h'.votes, tallies := h'.tallies)
    requires MayCount(h', s.id, s.currentTerm) && s.currentTerm > 0
    ensures VoterKept(h', s.id, s.currentTerm)
  {
    var n, term := s.id, s.currentTerm;
    assert term !in h.reigns by { UncountedWithoutVote(h, ids, n, term); }
    assert Grows(h, h', n) by {
      assert forall r | r in h.reigns :: ReignExtends(h.reigns[r], h'.reigns[r]);
    }
    forall t0: nat, i: nat | Acked(h', n, t0, i) && t0 < term
      ensures Kept(h', s.log, t0, i, term - 1)
    {
      assert Acked(h, n, t0, i);
      KeptBelow(h, s.log, t0, i, term);
      KeptGrows(h, h', s.log, t0, i, term - 1);
    }
  }

  lemma UncountedWithoutVote(h: History, ids: set<NodeId>, n: NodeId, term: nat)
    requires ReignsOk(h, ids) && (n, term) !in h.votes && term > 0
    ensures MayCount(h, n, term) ==> term !in h.reigns
  {
    assert term in h.reigns ==> ReignOk(h, ids, term);
  }

  lemma KeptBelow(h: History, log: Log, t0: nat, i: nat, term: nat)
    requires Kept(h, log, t0, i, term) && term !in h.reigns
    ensures Kept(h, log, t0, i, term - 1)
  {
    if !Agree(ReignLog(h, t0), log, i + 1) {
      var t1: nat :| t0 < t1 <= term && t1 in h.reigns && !Agree(ReignLog(h, t0), h.reigns[t1].base, i + 1);
      assert t1 <= term - 1;
    }
  }

  // ---------- a won election ----------

  lemma RecordedVictoryOk(h: History, h': History, ids: set<NodeId>, s: NodeState, log: Log)
    requires HistoryOk(h, ids)
    requires s.id in ids && s.role == Candidate && CandidateOk(h, ids, s) && BallotOk(h, s)
    requires Majority(Tally(h, s.id), ids)
    requires log == s.log + [Entry(s.currentTerm, |s.log|, NoOp)]
    requires h' == RecordVictory(h, s.id, s.currentTerm, s.log, log)
    ensures s.currentTerm !in h.reigns
    ensures Grows(h, h', s.id) && HistoryOk(h', ids)
  {
    var n, t := s.id, s.currentTerm;
    assert VoteOk(h, ids, n, t);
    NewTerm(h, ids, s);
    VictoryGrows(h, h', ids, s, log);
    FromLeadersGrows(h, h', s.log);
    VictoryReignOk(h, h', ids, s, log);
    HistoryFrame(h, h', ids, n);
  }

  lemma VictoryGrows(h: History, h': History, ids: set<NodeId>, s: NodeState, log: Log)
    requires AcksOk(h, ids) && BallotOk(h, s) && |log| > 0
    requires s.currentTerm !in h.reigns
    requires h' == RecordVictory(h, s.id, s.currentTerm, s.log, log)
    ensures Grows(h, h', s.id) && AcksAreCurrent(h, h') && ReignsAppend(h, h')
  {
    assert (s.id, s.currentTerm) !in h.acks by {
      assert |ReignLog(h, s.currentTerm)| == 0;
    }
    assert forall r | r in h.reigns :: ReignExtends(h.reigns[r], h'.reigns[r]);
  }

  /** Two majorities share a voter, and nobody votes twice in a term. */
  lemma OneWinner(h: History, ids: set<NodeId>, term: nat, a: set<NodeId>, x: NodeId, b: set<NodeId>, y: NodeId)
    requires Majority(a, ids) && (forall p | p in a :: VotedFor(h, p, term, x))
    requires Majority(b, ids) && (forall p | p in b :: VotedFor(h, p, term, y))
    ensures x == y
  {
    var p := MajoritiesMeet(a, b, ids);
    assert VotedFor(h, p, term, x) && VotedFor(h, p, term, y);
  }

  lemma NewTerm(h: History, ids: set<NodeId>, s: NodeState)
    requires HistoryOk(h, ids)
    requires s.role == Candidate && CandidateOk(h, ids, s)
    requires Majority(Tally(h, s.id), ids)
    ensures s.currentTerm !in h.reigns
  {
    var t := s.currentTerm;
    assert VoteOk(h, ids, s.id, t);
    if t in h.reigns {
      assert ReignOk(h, ids, t);
      OneWinner(h, ids, t, Tally(h, s.id), s.id, h.reigns[t].voters, h.reigns[t].leader);
      assert false;
    }
  }

  lemma VictoryReignOk(h: History, h': History, ids: set<NodeId>, s: NodeState, log: Log)
    requires HistoryOk(h, ids)
    requires s.role == Candidate && CandidateOk(h, ids, s)
    requires Majority(Tally(h, s.id), ids)
    requires log == s.log + [Entry(s.currentTerm, |s.log|, NoOp)]
    requires h' == RecordVictory(h, s.id, s.currentTerm, s.log, log)
    requires FromLeaders(h', s.log) && FromLeaders(h, s.log)
    requires VoteOk(h, ids, s.id, s.currentTerm)
    ensures ReignOk(h', ids, s.currentTerm)
  {
    var t := s.currentTerm;
    var r := h'.reigns[t];
    LogFacts(h, ids, s.log);
    forall i | 0 <= i < |r.log|
      ensures r.log[i].index == i && (if i < |r.base| then r.log[i].term < t else r.log[i].term == t)
    {
      if i < |s.log| {
        assert r.log[i] == s.log[i];
      }
    }
    forall p | p in r.voters
      ensures VotedFor(h', p, t, r.leader)
    {
      assert VotedFor(h, p, t, s.id);
    }
  }

  // ---------- a proposal ----------

  lemma RecordedProposalOk(h: History, h': History, ids: set<NodeId>, s: NodeState, command: Command)
    requires HistoryOk(h, ids)
    requires s.id in ids && |s.log| > 0 && s.role == Leader && LeaderOk(h, s) && BallotOk(h, s)
    requires h' == RecordProposal(h, s.id, s.currentTerm, Propose(s, command).log)
    ensures Grows(h, h', s.id) && HistoryOk(h', ids)
  {
    var n, t := s.id, s.currentTerm;
    ProposalGrows(h, h', ids, n, t, command);
    HistoryFrame(h, h', ids, n);
  }

  lemma ProposalGrows(h: History, h': History, ids: set<NodeId>, n: NodeId, t: nat, command: Command)
    requires AcksOk(h, ids)
    requires t in h.reigns && h.reigns[t].leader == n && (n, t) in h.acks
    requires forall u :: (n, u) in h.votes ==> u <= t
    requires h' == RecordProposal(h, n, t, h.reigns[t].log + [Entry(t, |h.reigns[t].log|, command)])
    ensures Grows(h, h', n) && AcksAreCurrent(h, h') && ReignsAppend(h, h')
  {
    assert h.acks[(n, t)] < |ReignLog(h, t)|;
    assert ReignExtends(h.reigns[t], h'.reigns[t]);
    assert forall u | u in h.reigns && u != t :: ReignExtends(h.reigns[u], h'.reigns[u]);
  }

  // ---------- an acknowledgement ----------

  lemma RecordedAckOk(h: History, h': History, ids: set<NodeId>, n: NodeId, term: nat, index: nat)
    requires HistoryOk(h, ids)
    requires n in ids && index < |ReignLog(h, term)|
    requires forall t :: (n, t) in h.votes ==> t <= term
    requires h' == RecordAck(h, n, term, index)
    ensures Grows(h, h', n) && HistoryOk(h', ids)
    ensures Acked(h', n, term, index)
  {
    AckGrows(h, h', n, term, index);
    HistoryFrame(h, h', ids, n);
  }

  lemma AckGrows(h: History, h': History, n: NodeId, term: nat, index: nat)
    requires forall t :: (n, t) in h.votes ==> t <= term
    requires h' == RecordAck(h, n, term, index)
    ensures Grows(h, h', n) && AcksAreCurrent(h, h') && ReignsAppend(h, h')
  {
    assert h'.reigns == h.reigns && h'.votes == h.votes && h'.commits == h.commits && h'.tallies == h.tallies;
    forall k | k in h.acks
      ensures k in h'.acks && h.acks[k] <= h'.acks[k] && (k != (n, term) ==> h'.acks[k] == h.acks[k])
    {}
    forall m, t, t0 | (m, t0) in h'.acks && (m, t) in h.votes && t0 < t
      ensures (m, t0) in h.acks && h'.acks[(m, t0)] == h.acks[(m, t0)]
    {
      assert (m, t0) != (n, term);
    }
  }

  // ---------- a commit ----------

  lemma RecordedCommitOk(h: History, h': History, ids: set<NodeId>, n: NodeId, term: nat, index: nat, q: set<NodeId>)
    requires HistoryOk(h, ids)
    requires index < |ReignLog(h, term)| && ReignLog(h, term)[index].term == term
    requires Majority(q, ids)
    requires forall m | m in q :: Acked(h, m, term, index)
    requires h' == h.(commits := h.commits[(term, index) := q])
    ensures Grows(h, h', n) && HistoryOk(h', ids)
  {
    assert Grows(h, h', n) by {
      assert forall u | u in h.reigns :: ReignExtends(h.reigns[u], h'.reigns[u]);
    }
    assert CommitOk(h', ids, term, index) by {
      forall m | m in q ensures Acked(h', m, term, index) { assert Acked(h, m, term, index); }
    }
    HistoryFrame(h, h', ids, n);
  }
}
