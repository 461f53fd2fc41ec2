/** What each atomic step of a Raft node does to its state (src/dssd/raft.py).
    `RaftNode.Raft` is the imperative form; `RaftCluster` composes these steps. */
module RaftSpec {
  import opened RaftTypes

  /** A node that was just constructed, before `start`. */
  function NewNode(id: NodeId, peers: seq<NodeId>): NodeState {
    NodeState(id, peers, 0, NOBODY, [SENTINEL], Follower, NOBODY, 0, 0, map[], map[], 0, false, [], false)
  }

  function Min(a: int, b: int): int {
    if a <= b then a else b
  }

  function Last(log: Log): Entry
    requires |log| > 0
  {
    log[|log| - 1]
  }

  function MajoritySize(peers: seq<NodeId>): nat {
    (|peers| + 1) / 2 + 1
  }

  // ---------- stop and start ----------

  function Start(s: NodeState): NodeState {
    s.(role := Follower, leaderId := NOBODY, running := true)
  }

  function Stop(s: NodeState): NodeState {
    s.(running := false)
  }

  // ---------- elections ----------

  function BecomeFollower(s: NodeState, term: nat): NodeState {
    s.(currentTerm := term, votedFor := NOBODY, role := Follower)
  }

  function StartElection(s: NodeState): NodeState {
    s.(role := Candidate, currentTerm := s.currentTerm + 1, votedFor := s.id, leaderId := NOBODY, votes := 1)
  }

  /** The request a candidate sends to every peer. */
  function VoteRequest(s: NodeState): RequestVoteArgs
    requires |s.log| > 0
  {
    RequestVoteArgs(s.currentTerm, s.id, Last(s.log).index, Last(s.log).term)
  }

  function Propose(s: NodeState, command: Command): NodeState {
    if s.role != Leader then s else s.(log := s.log + [Entry(s.currentTerm, |s.log|, command)])
  }

  function BecomeLeader(s: NodeState): NodeState {
    if s.role != Candidate then s else
    Propose(s.(role := Leader, leaderId := s.id,
               nextIndex := map p | p in s.peers :: |s.log|,
               matchIndex := map p | p in s.peers :: 0), NoOp)
  }

  /** Whether a reply to the coroutine that asked in `term` adds to the running election's counter. */
  predicate CountsVote(s: NodeState, term: nat, reply: RequestVoteReply) {
    reply.term <= s.currentTerm && s.role == Candidate && s.currentTerm == term && reply.voteGranted
  }

  /** One vote reply arriving at the coroutine that asked in `term`. */
  function ReceiveVoteReply(s: NodeState, term: nat, reply: RequestVoteReply): NodeState {
    if reply.term > s.currentTerm then BecomeFollower(s, reply.term)
    else if CountsVote(s, term, reply) then
      var counted := s.(votes := s.votes + 1);
      if counted.votes >= MajoritySize(s.peers) then BecomeLeader(counted) else counted
    else s
  }

  /** Whether the candidate's log is at least as up to date as `log`. */
  predicate UpToDate(lastLogTerm: nat, lastLogIndex: nat, log: Log)
    requires |log| > 0
  {
    lastLogTerm > Last(log).term || (lastLogTerm == Last(log).term && lastLogIndex >= Last(log).index)
  }

  function SeeTerm(s: NodeState, term: nat): NodeState {
    if term > s.currentTerm then BecomeFollower(s, term) else s
  }

  predicate Grants(s: NodeState, args: RequestVoteArgs)
    requires |s.log| > 0
  {
    && args.term == s.currentTerm
    && (s.votedFor == NOBODY || s.votedFor == args.candidateId)
    && UpToDate(args.lastLogTerm, args.lastLogIndex, s.log)
  }

  function HandleRequestVote(s: NodeState, args: RequestVoteArgs): (r: (NodeState, RequestVoteReply))
    requires |s.log| > 0
  {
    var s := SeeTerm(s, args.term);
    if Grants(s, args) then (s.(votedFor := args.candidateId), RequestVoteReply(s.currentTerm, true))
    else (s, RequestVoteReply(s.currentTerm, false))
  }

  // ---------- replication, follower side ----------

  /** Whether `log` already has `entries[j]` at position `base + j`, judged by its term. */
  predicate Has(log: Log, base: nat, entries: Log, j: nat) {
    j < |entries| && base + j < |log| && log[base + j].term == entries[j].term
  }

  /** How many leading entries the log already has from position `base` on. */
  function MatchLength(log: Log, base: nat, entries: Log): (k: nat)
    ensures k <= |entries| && (base <= |log| ==> base + k <= |log|)
    ensures forall j | 0 <= j < k :: Has(log, base, entries, j)
    ensures k < |entries| ==> !Has(log, base, entries, k)
  {
    MatchFrom(log, base, entries, 0)
  }

  function MatchFrom(log: Log, base: nat, entries: Log, k: nat): (r: nat)
    requires k <= |entries|
    requires forall j | 0 <= j < k :: Has(log, base, entries, j)
    requires base <= |log| ==> base + k <= |log|
    ensures k <= r <= |entries| && (base <= |log| ==> base + r <= |log|)
    ensures forall j | 0 <= j < r :: Has(log, base, entries, j)
    ensures r < |entries| ==> !Has(log, base, entries, r)
    decreases |entries| - k
  {
    if Has(log, base, entries, k) then MatchFrom(log, base, entries, k + 1) else k
  }

  /** The log after taking `entries` at `base`: the first entry it does not
      have cuts off everything behind it. */
  function Merge(log: Log, base: nat, entries: Log): (r: Log)
    requires base <= |log|
    ensures |r| >= base + |entries|
  {
    var k := MatchLength(log, base, entries);
    if k == |entries| then log else log[..base + k] + entries[k..]
  }

  predicate LogAccepts(log: Log, args: AppendEntriesArgs) {
    args.prevLogIndex < |log| && log[args.prevLogIndex].term == args.prevLogTerm
  }

  predicate AcceptsAppend(s: NodeState, args: AppendEntriesArgs) {
    args.term >= s.currentTerm && LogAccepts(s.log, args)
  }

  /** A follower's state once its log accepted `args`. */
  function TakeAppend(s: NodeState, args: AppendEntriesArgs): (r: NodeState)
    requires LogAccepts(s.log, args)
    ensures |r.log| > args.prevLogIndex + |args.entries|
  {
    var log := Merge(s.log, args.prevLogIndex + 1, args.entries);
    if args.leaderCommit > s.commitIndex
    then s.(log := log, commitIndex := Min(args.leaderCommit, |log| - 1), applySignal := true)
    else s.(log := log)
  }

  function Follow(s: NodeState, args: AppendEntriesArgs): NodeState {
    SeeTerm(s, args.term).(role := Follower, leaderId := args.leaderId)
  }

  function HandleAppendEntries(s: NodeState, args: AppendEntriesArgs): (r: (NodeState, AppendEntriesReply)) {
    if args.term < s.currentTerm then (s, AppendEntriesReply(s.currentTerm, false))
    else if !LogAccepts(s.log, args) then (Follow(s, args), AppendEntriesReply(args.term, false))
    else (TakeAppend(Follow(s, args), args), AppendEntriesReply(args.term, true))
  }

  // ---------- replication, leader side ----------

  /** The bookkeeping a leader needs for reaching peer `p` without a lookup failing. */
  predicate CanReplicate(s: NodeState, p: NodeId) {
    p in s.nextIndex && p in s.matchIndex && 1 <= s.nextIndex[p] <= |s.log|
  }

  /** What a leader sends to peer `p`: always the whole suffix of its log. */
  function AppendRequest(s: NodeState, p: NodeId): AppendEntriesArgs
    requires CanReplicate(s, p)
  {
    var next := s.nextIndex[p];
    AppendEntriesArgs(s.currentTerm, s.id, next - 1, s.log[next - 1].term, s.log[next..], s.commitIndex)
  }

  /** How many of `peers` are known to hold index `n`. */
  function CountAtLeast(peers: seq<NodeId>, matchIndex: map<NodeId, nat>, n: nat): nat {
    if peers == [] then 0
    else CountAtLeast(peers[..|peers| - 1], matchIndex, n) +
         (if Last'(peers) in matchIndex && matchIndex[Last'(peers)] >= n then 1 else 0)
  }

  function Last'(peers: seq<NodeId>): NodeId
    requires |peers| > 0
  {
    peers[|peers| - 1]
  }

  /** Index `n` holds a current-term entry that a majority has. */
  predicate Committable(s: NodeState, n: nat) {
    && n < |s.log|
    && s.log[n].term == s.currentTerm
    && 1 + CountAtLeast(s.peers, s.matchIndex, n) >= MajoritySize(s.peers)
  }

  /** The newest committable index at or below `n`, or the present commit index. */
  function NewestCommittable(s: NodeState, n: nat): (r: nat)
    ensures r == s.commitIndex || (s.commitIndex < r <= n && Committable(s, r))
    ensures forall m | s.commitIndex < m <= n && Committable(s, m) :: m <= r
  {
    if n <= s.commitIndex then s.commitIndex
    else if Committable(s, n) then n
    else NewestCommittable(s, n - 1)
  }

  function AdvanceCommitIndex(s: NodeState): NodeState
    requires |s.log| > 0
  {
    var n := NewestCommittable(s, |s.log| - 1);
    if n > s.commitIndex then s.(commitIndex := n, applySignal := true) else s
  }

  /** One append reply arriving at the coroutine that sent `args` to `p`. */
  function ReceiveAppendReply(s: NodeState, p: NodeId, args: AppendEntriesArgs, reply: AppendEntriesReply): NodeState
    requires |s.log| > 0
    requires s.role == Leader ==> CanReplicate(s, p)
  {
    if reply.term > s.currentTerm then BecomeFollower(s, reply.term)
    else if s.role != Leader || s.currentTerm != args.term then s
    else if reply.success then
      var m := args.prevLogIndex + |args.entries|;
      AdvanceCommitIndex(s.(matchIndex := s.matchIndex[p := m], nextIndex := s.nextIndex[p := m + 1]))
    else if s.nextIndex[p] > 1 then s.(nextIndex := s.nextIndex[p := s.nextIndex[p] - 1])
    else s
  }

  // ---------- delivery ----------

  /** One wake-up of the applier: it drains everything committed so far. */
  function Apply(s: NodeState): NodeState
    requires s.commitIndex < |s.log|
  {
    if s.lastApplied >= s.commitIndex then s.(applySignal := false)
    else s.(applySignal := false, lastApplied := s.commitIndex,
            applied := s.applied + s.log[s.lastApplied + 1..s.commitIndex + 1])
  }
}
