/** What every reachable Raft group satisfies, told against the recorded history. */
module RaftInvariant {
  import opened RaftTypes
  import opened RaftSpec
  import opened RaftCluster

  // ---------- logs ----------

  /** The first `k` entries are there in both logs and the same. */
  ghost predicate Agree(a: Log, b: Log, k: int) {
    0 <= k <= |a| && k <= |b| && forall j | 0 <= j < k :: a[j] == b[j]
  }

  /** The log that the leader of `term` has written, as far as it got. */
  function ReignLog(h: History, term: nat): Log {
    if term in h.reigns then h.reigns[term].log else []
  }

  /** Every entry sits in front of exactly what its own term's leader had there. */
  ghost predicate FromLeaders(h: History, log: Log) {
    forall i {:trigger Rooted(h, log, i)} | 0 <= i < |log| :: Rooted(h, log, i)
  }

  ghost predicate Rooted(h: History, log: Log, i: int)
    requires 0 <= i < |log|
  {
    Agree(log, ReignLog(h, log[i].term), i + 1)
  }

  ghost predicate TermsBelow(log: Log, term: nat) {
    forall i | 0 <= i < |log| :: log[i].term < term
  }

  ghost predicate Majority(q: set<NodeId>, ids: set<NodeId>) {
    q <= ids && 2 * |q| > |ids|
  }

  // ---------- history ----------

  ghost predicate VotedFor(h: History, n: NodeId, term: nat, candidate: NodeId) {
    (n, term) in h.votes && h.votes[(n, term)].candidate == candidate
  }

  ghost predicate ReignOk(h: History, ids: set<NodeId>, term: nat)
    requires term in h.reigns
  {
    var r := h.reigns[term];
    && |r.base| < |r.log|
    && Agree(r.base, r.log, |r.base|)
    && FromLeaders(h, r.base)
    && (forall i | 0 <= i < |r.log| ::
          r.log[i].index == i && (if i < |r.base| then r.log[i].term < term else r.log[i].term == term))
    && (term > 0 ==>
          && |r.base| > 0
          && Majority(r.voters, ids)
          && VotedFor(h, r.leader, term, r.leader)
          && h.votes[(r.leader, term)].log == r.base
          && forall p | p in r.voters :: VotedFor(h, p, term, r.leader))
  }

  ghost predicate ReignsOk(h: History, ids: set<NodeId>) {
    && 0 in h.reigns
    && h.reigns[0] == Reign(NOBODY, {}, [], [SENTINEL])
    && forall t {:trigger ReignOk(h, ids, t)} | t in h.reigns :: ReignOk(h, ids, t)
  }

  /** A vote went to a candidate whose log was at least as up to date. */
  ghost predicate VoteOk(h: History, ids: set<NodeId>, n: NodeId, term: nat)
    requires (n, term) in h.votes
  {
    var v := h.votes[(n, term)];
    && n in ids && term > 0
    && |v.log| > 0 && FromLeaders(h, v.log) && TermsBelow(v.log, term)
    && VotedFor(h, v.candidate, term, v.candidate)
    && var own := h.votes[(v.candidate, term)].log;
    && |own| > 0
    && (Last(own).term > Last(v.log).term || (Last(own).term == Last(v.log).term && |own| >= |v.log|))
  }

  ghost predicate VotesOk(h: History, ids: set<NodeId>) {
    forall n, t {:trigger VoteOk(h, ids, n, t)} :: (n, t) in h.votes ==> VoteOk(h, ids, n, t)
  }

  /** Node `n` has told the leader of `term` that its log matches up to `i`. */
  ghost predicate Acked(h: History, n: NodeId, term: nat, i: int) {
    (n, term) in h.acks && i <= h.acks[(n, term)]
  }

  ghost predicate AcksOk(h: History, ids: set<NodeId>) {
    forall n, t :: (n, t) in h.acks ==> n in ids && h.acks[(n, t)] < |ReignLog(h, t)|
  }

  /** Some later leader, up to term `hi`, started without the entries up to `i` of `term`. */
  ghost predicate Lost(h: History, term: nat, i: nat, hi: int) {
    exists t1: nat :: term < t1 <= hi && t1 in h.reigns && !Agree(ReignLog(h, term), h.reigns[t1].base, i + 1)
  }

  ghost predicate Kept(h: History, log: Log, term: nat, i: nat, hi: int) {
    Agree(ReignLog(h, term), log, i + 1) || Lost(h, term, i, hi)
  }

  /** What a voter had acknowledged in earlier terms was still in its log when
      it voted, unless an even earlier leader had already dropped it. */
  ghost predicate VoterKept(h: History, n: NodeId, term: nat)
    requires (n, term) in h.votes
  {
    forall t0: nat, i: nat :: Acked(h, n, t0, i) && t0 < term ==> Kept(h, h.votes[(n, term)].log, t0, i, term - 1)
  }

  /** The vote was, or still may be, counted for an election. */
  ghost predicate MayCount(h: History, n: NodeId, term: nat) {
    term in h.reigns ==> n in h.reigns[term].voters
  }

  ghost predicate VotersKept(h: History) {
    forall n, t {:trigger VoterKept(h, n, t)} :: (n, t) in h.votes && MayCount(h, n, t) ==> VoterKept(h, n, t)
  }

  ghost predicate CommitOk(h: History, ids: set<NodeId>, term: nat, i: nat)
    requires (term, i) in h.commits
  {
    && i < |ReignLog(h, term)|
    && ReignLog(h, term)[i].term == term
    && Majority(h.commits[(term, i)], ids)
    && forall n | n in h.commits[(term, i)] :: Acked(h, n, term, i)
  }

  ghost predicate CommitsOk(h: History, ids: set<NodeId>) {
    forall t, i {:trigger CommitOk(h, ids, t, i)} :: (t, i) in h.commits ==> CommitOk(h, ids, t, i)
  }

  ghost predicate HistoryOk(h: History, ids: set<NodeId>) {
    && ReignsOk(h, ids)
    && VotesOk(h, ids)
    && AcksOk(h, ids)
    && VotersKept(h)
    && CommitsOk(h, ids)
  }

  // ---------- nodes ----------

  /** The entries of `log` up to `k` are covered by a commit of a term up to `term`. */
  ghost predicate CommittedUpTo(h: History, term: nat, log: Log, k: nat) {
    exists t0: nat, i: nat :: (t0, i) in h.commits && t0 <= term && k <= i && Agree(ReignLog(h, t0), log, k + 1)
  }

  ghost predicate LogOk(h: History, s: NodeState) {
    |s.log| > 0 && FromLeaders(h, s.log) && TermsBelow(s.log, s.currentTerm + 1)
  }

  ghost predicate BallotOk(h: History, s: NodeState) {
    && (forall t :: (s.id, t) in h.votes ==> t <= s.currentTerm)
    && (if s.votedFor == NOBODY then (s.id, s.currentTerm) !in h.votes
        else VotedFor(h, s.id, s.currentTerm, s.votedFor))
  }

  ghost predicate CandidateOk(h: History, ids: set<NodeId>, s: NodeState) {
    s.role == Candidate ==>
      && s.votedFor == s.id
      && VotedFor(h, s.id, s.currentTerm, s.id)
      && h.votes[(s.id, s.currentTerm)].log == s.log
      && !(s.currentTerm in h.reigns && h.reigns[s.currentTerm].leader == s.id)
      && s.votes == |Tally(h, s.id)|
      && s.id in Tally(h, s.id)
      && forall p | p in Tally(h, s.id) :: p in ids && VotedFor(h, p, s.currentTerm, s.id)
  }

  ghost predicate PeerOk(h: History, s: NodeState, p: NodeId) {
    && CanReplicate(s, p)
    && s.matchIndex[p] < |s.log|
    && (s.matchIndex[p] > 0 ==> Acked(h, p, s.currentTerm, s.matchIndex[p]))
  }

  ghost predicate LeaderOk(h: History, s: NodeState) {
    s.role == Leader ==>
      && s.currentTerm > 0
      && s.currentTerm in h.reigns
      && h.reigns[s.currentTerm].leader == s.id
      && h.reigns[s.currentTerm].log == s.log
      && Acked(h, s.id, s.currentTerm, |s.log| - 1)
      && forall p | p in s.peers :: PeerOk(h, s, p)
  }

  ghost predicate NodeKept(h: History, s: NodeState) {
    forall t: nat, i: nat :: Acked(h, s.id, t, i) ==> t <= s.currentTerm && Kept(h, s.log, t, i, s.currentTerm)
  }

  ghost predicate DeliveryOk(s: NodeState) {
    && s.lastApplied <= s.commitIndex < |s.log|
    && (s.lastApplied < s.commitIndex ==> s.applySignal)
    && s.applied == s.log[1..s.lastApplied + 1]
  }

  ghost predicate NodeOk(h: History, ids: set<NodeId>, s: NodeState) {
    && s.id in ids
    && PeersOf(ids, s.id, s.peers)
    && LogOk(h, s)
    && BallotOk(h, s)
    && CandidateOk(h, ids, s)
    && LeaderOk(h, s)
    && NodeKept(h, s)
    && DeliveryOk(s)
    && CommittedUpTo(h, s.currentTerm, s.log, s.commitIndex)
  }

  // ---------- messages ----------

  ghost predicate VoteCallOk(h: History, ids: set<NodeId>, call: VoteCall) {
    && call.src in ids && call.dst in ids && call.src != call.dst
    && call.args.candidateId == call.src
    && VotedFor(h, call.src, call.args.term, call.src)
    && var log := h.votes[(call.src, call.args.term)].log;
    && |log| > 0
    && call.args.lastLogTerm == Last(log).term
    && call.args.lastLogIndex == Last(log).index
  }

  ghost predicate VoteReplyOk(h: History, call: VoteCall, reply: RequestVoteReply) {
    reply.voteGranted ==> VotedFor(h, call.dst, call.args.term, call.src)
  }

  /** The entries `call` carries are what the leader of its term wrote at those places. */
  ghost predicate AppendCallOk(h: History, ids: set<NodeId>, call: AppendCall) {
    var args, log := call.args, ReignLog(h, call.args.term);
    && call.src in ids && call.dst in ids && call.src != call.dst
    && args.term in h.reigns && h.reigns[args.term].leader == call.src
    && args.prevLogIndex + |args.entries| < |log|
    && log[args.prevLogIndex].term == args.prevLogTerm
    && (forall j | 0 <= j < |args.entries| :: args.entries[j] == log[args.prevLogIndex + 1 + j])
    && args.leaderCommit <= args.prevLogIndex + |args.entries|
    && CommittedUpTo(h, args.term, log, args.leaderCommit)
  }

  ghost predicate AppendReplyOk(h: History, call: AppendCall, reply: AppendEntriesReply) {
    reply.success ==> Acked(h, call.dst, call.args.term, call.args.prevLogIndex + |call.args.entries|)
  }

  /** A call still awaited by a candidate's running election has not been counted. */
  ghost predicate UncountedOk(c: Cluster, call: VoteCall) {
    call.src in c.nodes &&
    var s := c.nodes[call.src];
    s.role == Candidate && s.currentTerm == call.args.term ==> call.dst !in Tally(c.history, call.src)
  }

  ghost predicate MessagesOk(c: Cluster) {
    var h, ids := c.history, c.nodes.Keys;
    && (forall call | call in c.voteCalls :: VoteCallOk(h, ids, call))
    && (forall call, reply | (call, reply) in c.voteReplies :: call in c.voteCalls && VoteReplyOk(h, call, reply))
    && (forall call | call in c.openVotes :: call in c.voteCalls && UncountedOk(c, call))
    && (forall call | call in c.appendCalls :: AppendCallOk(h, ids, call))
    && (forall call, reply | (call, reply) in c.appendReplies :: call in c.appendCalls && AppendReplyOk(h, call, reply))
    && (forall call | call in c.openAppends :: call in c.appendCalls)
  }

  ghost predicate NodesOk(c: Cluster) {
    && NOBODY !in c.nodes
    && forall n | n in c.nodes :: c.nodes[n].id == n && NodeOk(c.history, c.nodes.Keys, c.nodes[n])
  }

  ghost predicate Invariant(c: Cluster) {
    HistoryOk(c.history, c.nodes.Keys) && NodesOk(c) && MessagesOk(c)
  }

  // ---------- how history grows ----------

  /** `h'` is `h` or came after it. */
  ghost predicate Continues(h: History, h': History) {
    && (forall k | k in h.votes :: k in h'.votes && h'.votes[k] == h.votes[k])
    && (forall t | t in h.reigns :: t in h'.reigns && ReignExtends(h.reigns[t], h'.reigns[t]))
    && (forall k | k in h.acks :: k in h'.acks && h.acks[k] <= h'.acks[k])
    && (forall k | k in h.commits :: k in h'.commits)
  }

  ghost predicate ReignExtends(r: Reign, r': Reign) {
    && r'.leader == r.leader && r'.voters == r.voters && r'.base == r.base
    && Agree(r.log, r'.log, |r.log|)
  }

  /** `h'` came right after `h`, and everything new is about node `n`. */
  ghost predicate Grows(h: History, h': History, n: NodeId) {
    && Continues(h, h')
    && (forall k | k in h'.votes && k !in h.votes :: k.0 == n)
    && (forall m | m != n :: Tally(h', m) == Tally(h, m))
    && (forall t | t in h.reigns && h.reigns[t].leader != n :: h'.reigns[t] == h.reigns[t])
    && (forall t | t in h'.reigns && t !in h.reigns :: h'.reigns[t].leader == n)
    && (forall k | k in h.acks && k.0 != n :: h'.acks[k] == h.acks[k])
    && (forall k | k in h'.acks && k !in h.acks :: k.0 == n)
  }
}
