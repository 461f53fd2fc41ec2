/** Facts about recorded logs, and what survives when history grows. */
module RaftFrames {
  import opened RaftTypes
  import opened RaftSpec
  import opened RaftCluster
  import opened RaftInvariant

  // ---------- sets and majorities ----------

  lemma SubsetSize<T>(a: set<T>, b: set<T>)
    requires a <= b
    ensures |a| <= |b|
  {
    assert |b| == |a| + |b - a| by { assert b == a + (b - a); }
  }

  lemma MajoritiesMeet(a: set<NodeId>, b: set<NodeId>, ids: set<NodeId>) returns (n: NodeId)
    requires Majority(a, ids) && Majority(b, ids)
    ensures n in a && n in b
  {
    SubsetSize(a + b, ids);
    assert |a + b| == |a| + |b| - |a * b|;
    assert a * b != {};
    n :| n in a * b;
  }

  // ---------- recorded logs ----------

  lemma LogFacts(h: History, ids: set<NodeId>, log: Log)
    requires ReignsOk(h, ids) && FromLeaders(h, log)
    ensures forall i | 0 <= i < |log| :: log[i].index == i && log[i].term in h.reigns
    ensures forall i, j | 0 <= j <= i < |log| :: log[j].term <= log[i].term
    ensures |log| > 0 ==> log[0] == SENTINEL
  {
    forall i | 0 <= i < |log|
      ensures log[i].index == i && log[i].term in h.reigns
      ensures forall j | 0 <= j <= i :: log[j].term <= log[i].term
    {
      var t := log[i].term;
      assert Rooted(h, log, i);
      assert ReignOk(h, ids, t);
    }
    if |log| > 0 {
      assert Rooted(h, log, 0);
      assert ReignOk(h, ids, log[0].term);
    }
  }

  /** Log matching (section 5.3 of the Raft paper): equal terms at one place mean equal logs up to it. */
  lemma LogMatching(h: History, a: Log, b: Log, i: nat)
    requires FromLeaders(h, a) && FromLeaders(h, b)
    requires i < |a| && i < |b| && a[i].term == b[i].term
    ensures Agree(a, b, i + 1)
  {
    var r := ReignLog(h, a[i].term);
    assert Rooted(h, a, i) && Rooted(h, b, i);
    forall j | 0 <= j < i + 1
      ensures a[j] == b[j]
    {
      assert a[j] == r[j] && b[j] == r[j];
    }
  }

  lemma ReignLogFromLeaders(h: History, ids: set<NodeId>, term: nat)
    requires ReignsOk(h, ids)
    ensures FromLeaders(h, ReignLog(h, term))
  {
    if term in h.reigns {
      var r := h.reigns[term];
      assert ReignOk(h, ids, term);
      forall i | 0 <= i < |r.log|
        ensures Rooted(h, r.log, i)
      {
        if i < |r.base| {
          assert Rooted(h, r.base, i);
          assert forall j | 0 <= j < i + 1 :: r.log[j] == r.base[j];
        }
      }
    }
  }

  lemma AgreeShorter(a: Log, b: Log, k: int, m: int)
    requires Agree(a, b, k) && 0 <= m <= k
    ensures Agree(a, b, m)
  {}

  lemma AgreeTrans(a: Log, b: Log, c: Log, k: int)
    requires Agree(a, b, k) && Agree(b, c, k)
    ensures Agree(a, c, k)
  {
    forall j | 0 <= j < k ensures a[j] == c[j] { assert a[j] == b[j] && b[j] == c[j]; }
  }

  lemma AgreeThrough(a: Log, b: Log, c: Log, k: int)
    requires Agree(a, b, k)
    ensures Agree(b, c, k) ==> Agree(a, c, k)
  {
    if Agree(b, c, k) {
      AgreeTrans(a, b, c, k);
    }
  }

  // ---------- growth ----------

  lemma ReignLogGrows(h: History, h': History, term: nat)
    requires Continues(h, h')
    ensures |ReignLog(h, term)| <= |ReignLog(h', term)|
    ensures Agree(ReignLog(h, term), ReignLog(h', term), |ReignLog(h, term)|)
  {
    if term in h.reigns {
      assert ReignExtends(h.reigns[term], h'.reigns[term]);
    }
  }

  lemma FromLeadersGrows(h: History, h': History, log: Log)
    requires Continues(h, h') && FromLeaders(h, log)
    ensures FromLeaders(h', log)
  {
    forall i | 0 <= i < |log|
      ensures Rooted(h', log, i)
    {
      assert Rooted(h, log, i);
      ReignLogGrows(h, h', log[i].term);
      AgreeShorter(ReignLog(h, log[i].term), ReignLog(h', log[i].term), |ReignLog(h, log[i].term)|, i + 1);
      AgreeTrans(log, ReignLog(h, log[i].term), ReignLog(h', log[i].term), i + 1);
    }
  }

  lemma KeptGrows(h: History, h': History, log: Log, term: nat, i: nat, hi: int)
    requires Continues(h, h')
    requires i < |ReignLog(h, term)|
    requires Kept(h, log, term, i, hi)
    ensures Kept(h', log, term, i, hi)
  {
    var a, b := ReignLog(h, term), ReignLog(h', term);
    ReignLogGrows(h, h', term);
    if Agree(a, log, i + 1) {
      assert forall j | 0 <= j < i + 1 :: b[j] == a[j] == log[j];
    } else {
      var t1: nat :| term < t1 <= hi && t1 in h.reigns && !Agree(a, h.reigns[t1].base, i + 1);
      assert ReignExtends(h.reigns[t1], h'.reigns[t1]);
      assert h'.reigns[t1].base == h.reigns[t1].base;
      AgreeShorter(a, b, |a|, i + 1);
      AgreeThrough(a, b, h.reigns[t1].base, i + 1);
    }
  }

  lemma KeptWiden(h: History, log: Log, term: nat, i: nat, hi: int, hi': int)
    requires Kept(h, log, term, i, hi) && hi <= hi'
    ensures Kept(h, log, term, i, hi')
  {
    if !Agree(ReignLog(h, term), log, i + 1) {
      var t1: nat :| term < t1 <= hi && t1 in h.reigns && !Agree(ReignLog(h, term), h.reigns[t1].base, i + 1);
      assert term < t1 <= hi';
    }
  }

  lemma CommittedGrows(h: History, h': History, term: nat, term': nat, log: Log, k: nat)
    requires Continues(h, h') && term <= term'
    requires CommittedUpTo(h, term, log, k)
    ensures CommittedUpTo(h', term', log, k)
  {
    var t0: nat, i: nat :| (t0, i) in h.commits && t0 <= term && k <= i && Agree(ReignLog(h, t0), log, k + 1);
    ReignLogGrows(h, h', t0);
    assert (t0, i) in h'.commits;
    assert forall j | 0 <= j < k + 1 :: ReignLog(h', t0)[j] == ReignLog(h, t0)[j] == log[j];
  }

  /** `log` may be exchanged for one that agrees with it far enough. */
  lemma CommittedAlong(h: History, term: nat, log: Log, log': Log, k: nat)
    requires CommittedUpTo(h, term, log, k)
    requires Agree(log, log', k + 1)
    ensures CommittedUpTo(h, term, log', k)
  {
    var t0: nat, i: nat :| (t0, i) in h.commits && t0 <= term && k <= i && Agree(ReignLog(h, t0), log, k + 1);
    AgreeTrans(ReignLog(h, t0), log, log', k + 1);
  }

  /** A step of another node leaves everything known about `s` true. */
  lemma NodeFrame(h: History, h': History, ids: set<NodeId>, n: NodeId, s: NodeState)
    requires HistoryOk(h, ids)
    requires NodeOk(h, ids, s) && s.id != n
    requires Grows(h, h', n)
    ensures NodeOk(h', ids, s)
  {
    FromLeadersGrows(h, h', s.log);
    CommittedGrows(h, h', s.currentTerm, s.currentTerm, s.log, s.commitIndex);
    assert BallotOk(h', s) by { BallotFrame(h, h', n, s); }
    assert CandidateOk(h', ids, s) by { CandidateFrame(h, h', ids, n, s); }
    assert LeaderOk(h', s) by { LeaderFrame(h, h', n, s); }
    assert NodeKept(h', s) by { NodeKeptFrame(h, h', ids, n, s); }
  }

  lemma BallotFrame(h: History, h': History, n: NodeId, s: NodeState)
    requires BallotOk(h, s) && s.id != n
    requires Grows(h, h', n)
    ensures BallotOk(h', s)
  {
    forall t | (s.id, t) in h'.votes
      ensures (s.id, t) in h.votes
    {
      assert (s.id, t).0 == s.id;
    }
    if s.votedFor != NOBODY {
      assert (s.id, s.currentTerm) in h.votes;
    }
  }

  lemma CandidateFrame(h: History, h': History, ids: set<NodeId>, n: NodeId, s: NodeState)
    requires CandidateOk(h, ids, s) && s.id != n
    requires Grows(h, h', n)
    ensures CandidateOk(h', ids, s)
  {
    if s.role == Candidate {
      assert (s.id, s.currentTerm) in h.votes;
      assert Tally(h', s.id) == Tally(h, s.id);
      forall p | p in Tally(h', s.id)
        ensures p in ids && VotedFor(h', p, s.currentTerm, s.id)
      {
        assert VotedFor(h, p, s.currentTerm, s.id);
        assert (p, s.currentTerm) in h.votes;
      }
      if s.currentTerm in h.reigns {
        assert ReignExtends(h.reigns[s.currentTerm], h'.reigns[s.currentTerm]);
      }
    }
  }

  lemma LeaderFrame(h: History, h': History, n: NodeId, s: NodeState)
    requires LeaderOk(h, s) && s.id != n
    requires Grows(h, h', n)
    ensures LeaderOk(h', s)
  {
    if s.role == Leader {
      assert ReignExtends(h.reigns[s.currentTerm], h'.reigns[s.currentTerm]);
      assert (s.id, s.currentTerm) in h.acks;
      forall p | p in s.peers
        ensures PeerOk(h', s, p)
      {
        assert PeerOk(h, s, p);
        if s.matchIndex[p] > 0 {
          assert (p, s.currentTerm) in h.acks;
        }
      }
    }
  }

  lemma NodeKeptFrame(h: History, h': History, ids: set<NodeId>, n: NodeId, s: NodeState)
    requires AcksOk(h, ids) && NodeKept(h, s) && s.id != n
    requires Grows(h, h', n)
    ensures NodeKept(h', s)
  {
    forall t: nat, i: nat | Acked(h', s.id, t, i)
      ensures t <= s.currentTerm && Kept(h', s.log, t, i, s.currentTerm)
    {
      assert (s.id, t).0 == s.id;
      assert (s.id, t) in h'.acks;
      assert (s.id, t) in h.acks && h'.acks[(s.id, t)] == h.acks[(s.id, t)];
      assert Acked(h, s.id, t, i);
      KeptGrows(h, h', s.log, t, i, s.currentTerm);
    }
  }

  lemma VoteCallFrame(h: History, h': History, ids: set<NodeId>, n: NodeId, call: VoteCall)
    requires VoteCallOk(h, ids, call) && Grows(h, h', n)
    ensures VoteCallOk(h', ids, call)
  {
    assert (call.src, call.args.term) in h.votes;
  }

  lemma VoteReplyFrame(h: History, h': History, n: NodeId, call: VoteCall, reply: RequestVoteReply)
    requires VoteReplyOk(h, call, reply) && Grows(h, h', n)
    ensures VoteReplyOk(h', call, reply)
  {
    if reply.voteGranted {
      assert (call.dst, call.args.term) in h.votes;
    }
  }

  lemma AppendCallFrame(h: History, h': History, ids: set<NodeId>, n: NodeId, call: AppendCall)
    requires AppendCallOk(h, ids, call) && Grows(h, h', n)
    ensures AppendCallOk(h', ids, call)
  {
    var args := call.args;
    var log, log' := ReignLog(h, args.term), ReignLog(h', args.term);
    ReignLogGrows(h, h', args.term);
    assert ReignExtends(h.reigns[args.term], h'.reigns[args.term]);
    forall j | 0 <= j < |args.entries|
      ensures args.entries[j] == log'[args.prevLogIndex + 1 + j]
    {
      assert log[args.prevLogIndex + 1 + j] == log'[args.prevLogIndex + 1 + j];
    }
    CommittedGrows(h, h', args.term, args.term, log, args.leaderCommit);
    AgreeShorter(log, log', |log|, args.leaderCommit + 1);
    CommittedAlong(h', args.term, log, log', args.leaderCommit);
  }

  lemma AppendReplyFrame(h: History, h': History, n: NodeId, call: AppendCall, reply: AppendEntriesReply)
    requires AppendReplyOk(h, call, reply) && Grows(h, h', n)
    ensures AppendReplyOk(h', call, reply)
  {
    if reply.success {
      assert (call.dst, call.args.term) in h.acks;
    }
  }
}
