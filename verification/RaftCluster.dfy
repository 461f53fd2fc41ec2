/** A whole Raft group as a step system. Each step is one atomic piece of
    src/dssd/raft.py at one node; timers, delays, losses, duplicates and
    reorderings are the free choice of the next step. Requests stay in the
    network for ever and may be handled any number of times, replies stay too,
    but each call hands at most one reply to the coroutine that waits for it. */
module RaftCluster {
  import opened RaftTypes
  import opened RaftSpec

  datatype VoteCall = VoteCall(src: NodeId, dst: NodeId, args: RequestVoteArgs)

  /** `number` tells apart calls that carry the same arguments. */
  datatype AppendCall = AppendCall(number: nat, src: NodeId, dst: NodeId, args: AppendEntriesArgs)

  /** A recorded vote, with the voter's log at that moment. */
  datatype Vote = Vote(candidate: NodeId, log: Log)

  /** One won election: who won, whose votes were counted, the winner's log at
      that moment, and its log as far as it has grown while leading. */
  datatype Reign = Reign(leader: NodeId, voters: set<NodeId>, base: Log, log: Log)

  /** What an observer writes down. No step ever reads it.
      `votes` and `acks` are keyed by node and term: an ack is the highest index
      up to which the node told that term's leader that its log matches.
      `commits` is keyed by term and index and names the nodes that were counted. */
  datatype History = History(
    votes: map<(NodeId, nat), Vote>,
    tallies: map<NodeId, set<NodeId>>,
    reigns: map<nat, Reign>,
    acks: map<(NodeId, nat), nat>,
    commits: map<(nat, nat), set<NodeId>>)

  datatype Cluster = Cluster(
    nodes: map<NodeId, NodeState>,
    voteCalls: set<VoteCall>,
    openVotes: set<VoteCall>,
    voteReplies: set<(VoteCall, RequestVoteReply)>,
    appendCalls: set<AppendCall>,
    openAppends: set<AppendCall>,
    appendReplies: set<(AppendCall, AppendEntriesReply)>,
    sends: nat,
    history: History)

  // ---------- observing ----------

  function Tally(h: History, n: NodeId): set<NodeId> {
    if n in h.tallies then h.tallies[n] else {}
  }

  function RecordCandidacy(h: History, n: NodeId, term: nat, log: Log): History {
    h.(votes := h.votes[(n, term) := Vote(n, log)], tallies := h.tallies[n := {n}])
  }

  /** A vote that is granted again for the same candidate stays as first recorded. */
  function RecordVote(h: History, n: NodeId, term: nat, candidate: NodeId, log: Log): History {
    if (n, term) in h.votes then h else h.(votes := h.votes[(n, term) := Vote(candidate, log)])
  }

  function RecordCount(h: History, n: NodeId, voter: NodeId): History {
    h.(tallies := h.tallies[n := Tally(h, n) + {voter}])
  }

  function RecordVictory(h: History, n: NodeId, term: nat, base: Log, log: Log): History
    requires |log| > 0
  {
    h.(reigns := h.reigns[term := Reign(n, Tally(h, n), base, log)],
       acks := h.acks[(n, term) := |log| - 1])
  }

  function RecordProposal(h: History, n: NodeId, term: nat, log: Log): History
    requires |log| > 0
  {
    if term !in h.reigns then h else
    h.(reigns := h.reigns[term := h.reigns[term].(log := log)], acks := h.acks[(n, term) := |log| - 1])
  }

  function RecordAck(h: History, n: NodeId, term: nat, index: nat): History {
    if (n, term) in h.acks && h.acks[(n, term)] >= index then h
    else h.(acks := h.acks[(n, term) := index])
  }

  /** The nodes that `_advance_commit_index` counts for index `n`. */
  function Holders(s: NodeState, n: nat): set<NodeId> {
    {s.id} + set p | p in s.peers && p in s.matchIndex && s.matchIndex[p] >= n
  }

  function RecordAdvance(h: History, s: NodeState, s': NodeState): History {
    if s'.commitIndex > s.commitIndex
    then h.(commits := h.commits[(s'.currentTerm, s'.commitIndex) := Holders(s', s'.commitIndex)])
    else h
  }

  // ---------- steps ----------

  datatype Step =
    | StartNode(n: NodeId)
    | StopNode(n: NodeId)
    | ElectionTimeout(n: NodeId)
    | ServeVote(voteCall: VoteCall)
    | GetVoteReply(voteCall: VoteCall, voteReply: RequestVoteReply)
    | GiveUpVote(voteCall: VoteCall)
    | ProposeCommand(n: NodeId, command: Command)
    | SendAppend(n: NodeId, peer: NodeId)
    | ServeAppend(appendCall: AppendCall)
    | GetAppendReply(appendCall: AppendCall, appendReply: AppendEntriesReply)
    | GiveUpAppend(appendCall: AppendCall)
    | ApplyCommitted(n: NodeId)

  /** The node whose state a step may change. */
  function Actor(step: Step): NodeId {
    match step
    case StartNode(n) => n
    case StopNode(n) => n
    case ElectionTimeout(n) => n
    case ServeVote(call) => call.dst
    case GetVoteReply(call, _) => call.src
    case GiveUpVote(call) => call.src
    case ProposeCommand(n, _) => n
    case SendAppend(n, _) => n
    case ServeAppend(call) => call.dst
    case GetAppendReply(call, _) => call.src
    case GiveUpAppend(call) => call.src
    case ApplyCommitted(n) => n
  }

  /** Lookups and slices of the step do not fail. `RaftSafety.NoStepFails` shows
      that this never rules out a step of a reachable cluster. */
  predicate Defined(c: Cluster, step: Step) {
    && Actor(step) in c.nodes
    && var s := c.nodes[Actor(step)];
    && |s.log| > 0
    && s.commitIndex < |s.log|
    && (step.SendAppend? && s.role == Leader ==> CanReplicate(s, step.peer))
    && (step.GetAppendReply? && s.role == Leader ==> CanReplicate(s, step.appendCall.dst))
  }

  /** When the program can take the step. */
  predicate Possible(c: Cluster, step: Step) {
    Actor(step) in c.nodes &&
    var s := c.nodes[Actor(step)];
    match step
    case StartNode(_) => !s.running
    case StopNode(_) => s.running
    case ElectionTimeout(_) => s.running && s.role != Leader
    case ServeVote(call) => call in c.voteCalls
    case GetVoteReply(call, reply) => call in c.openVotes && (call, reply) in c.voteReplies
    case GiveUpVote(call) => call in c.openVotes
    case ProposeCommand(_, _) => true
    case SendAppend(_, peer) => s.running && s.role == Leader && peer in s.peers
    case ServeAppend(call) => call in c.appendCalls
    case GetAppendReply(call, reply) => call in c.openAppends && (call, reply) in c.appendReplies
    case GiveUpAppend(call) => call in c.openAppends
    case ApplyCommitted(_) => s.running && s.applySignal
  }

  function SetNode(c: Cluster, n: NodeId, s: NodeState, h: History): Cluster {
    c.(nodes := c.nodes[n := s], history := h)
  }

  function VoteCalls(s: NodeState): set<VoteCall>
    requires |s.log| > 0
  {
    set p | p in s.peers :: VoteCall(s.id, p, VoteRequest(s))
  }

  function AfterElectionTimeout(c: Cluster, n: NodeId): Cluster
    requires Defined(c, ElectionTimeout(n))
  {
    var s := StartElection(c.nodes[n]);
    SetNode(c, n, s, RecordCandidacy(c.history, n, s.currentTerm, s.log))
      .(voteCalls := c.voteCalls + VoteCalls(s), openVotes := c.openVotes + VoteCalls(s))
  }

  function AfterServeVote(c: Cluster, call: VoteCall): Cluster
    requires Defined(c, ServeVote(call))
  {
    var (s, reply) := HandleRequestVote(c.nodes[call.dst], call.args);
    var h := if reply.voteGranted then RecordVote(c.history, call.dst, call.args.term, call.args.candidateId, s.log)
             else c.history;
    SetNode(c, call.dst, s, h).(voteReplies := c.voteReplies + {(call, reply)})
  }

  /** What the observer writes down when a vote reply is counted. */
  function RecordVoteReply(h: History, s: NodeState, call: VoteCall, reply: RequestVoteReply): History
    requires |s.log| > 0
  {
    if !CountsVote(s, call.args.term, reply) then h else
    var h := RecordCount(h, s.id, call.dst);
    var s' := ReceiveVoteReply(s, call.args.term, reply);
    if s'.role == Leader then RecordVictory(h, s.id, s.currentTerm, s.log, s'.log) else h
  }

  function AfterVoteReply(c: Cluster, call: VoteCall, reply: RequestVoteReply): Cluster
    requires Defined(c, GetVoteReply(call, reply))
  {
    var s := c.nodes[call.src];
    SetNode(c, call.src, ReceiveVoteReply(s, call.args.term, reply), RecordVoteReply(c.history, s, call, reply))
      .(openVotes := c.openVotes - {call})
  }

  function AfterPropose(c: Cluster, n: NodeId, command: Command): Cluster
    requires Defined(c, ProposeCommand(n, command))
  {
    var s := Propose(c.nodes[n], command);
    SetNode(c, n, s, if s.role == Leader then RecordProposal(c.history, n, s.currentTerm, s.log) else c.history)
  }

  function AfterSendAppend(c: Cluster, n: NodeId, peer: NodeId): Cluster
    requires Defined(c, SendAppend(n, peer))
  {
    var s := c.nodes[n];
    if s.role != Leader then c else
    var call := AppendCall(c.sends, n, peer, AppendRequest(s, peer));
    c.(appendCalls := c.appendCalls + {call}, openAppends := c.openAppends + {call}, sends := c.sends + 1)
  }

  function AfterServeAppend(c: Cluster, call: AppendCall): Cluster
    requires Defined(c, ServeAppend(call))
  {
    var (s, reply) := HandleAppendEntries(c.nodes[call.dst], call.args);
    var h := if reply.success
             then RecordAck(c.history, call.dst, call.args.term, call.args.prevLogIndex + |call.args.entries|)
             else c.history;
    SetNode(c, call.dst, s, h).(appendReplies := c.appendReplies + {(call, reply)})
  }

  function AfterAppendReply(c: Cluster, call: AppendCall, reply: AppendEntriesReply): Cluster
    requires Defined(c, GetAppendReply(call, reply))
  {
    var s := c.nodes[call.src];
    var s' := ReceiveAppendReply(s, call.dst, call.args, reply);
    SetNode(c, call.src, s', RecordAdvance(c.history, s, s')).(openAppends := c.openAppends - {call})
  }

  function After(c: Cluster, step: Step): Cluster
    requires Defined(c, step)
  {
    match step
    case StartNode(n) => SetNode(c, n, Start(c.nodes[n]), c.history)
    case StopNode(n) =>
      SetNode(c, n, Stop(c.nodes[n]), c.history)
        .(openVotes := (set call | call in c.openVotes && call.src != n),
          openAppends := (set call | call in c.openAppends && call.src != n))
    case ElectionTimeout(n) => AfterElectionTimeout(c, n)
    case ServeVote(call) => AfterServeVote(c, call)
    case GetVoteReply(call, reply) => AfterVoteReply(c, call, reply)
    case GiveUpVote(call) => c.(openVotes := c.openVotes - {call})
    case ProposeCommand(n, command) => AfterPropose(c, n, command)
    case SendAppend(n, peer) => AfterSendAppend(c, n, peer)
    case ServeAppend(call) => AfterServeAppend(c, call)
    case GetAppendReply(call, reply) => AfterAppendReply(c, call, reply)
    case GiveUpAppend(call) => c.(openAppends := c.openAppends - {call})
    case ApplyCommitted(n) => SetNode(c, n, Apply(c.nodes[n]), c.history)
  }

  // ---------- runs ----------

  /** The peers of `n` are the other members, each once. */
  ghost predicate PeersOf(ids: set<NodeId>, n: NodeId, peers: seq<NodeId>) {
    && (forall p :: p in peers <==> p in ids && p != n)
    && (forall i, j | 0 <= i < j < |peers| :: peers[i] != peers[j])
  }

  function InitialHistory(ids: set<NodeId>): History {
    History(map[], map[], map[0 := Reign(NOBODY, {}, [], [SENTINEL])],
            map n | n in ids :: (n, 0) := 0, map[(0, 0) := ids])
  }

  ghost predicate Initial(c: Cluster) {
    && NOBODY !in c.nodes
    && c.nodes.Keys != {}
    && (forall n | n in c.nodes :: PeersOf(c.nodes.Keys, n, c.nodes[n].peers) && c.nodes[n] == NewNode(n, c.nodes[n].peers))
    && c.voteCalls == c.openVotes == {} && c.voteReplies == {}
    && c.appendCalls == c.openAppends == {} && c.appendReplies == {}
    && c.history == InitialHistory(c.nodes.Keys)
  }

  /** One step of the group, or a moment in which only something around it moves. */
  ghost predicate Next(c: Cluster, c': Cluster) {
    c' == c || exists step :: Possible(c, step) && Defined(c, step) && c' == After(c, step)
  }

  /** A finite execution of the group. */
  ghost predicate Run(run: seq<Cluster>) {
    && |run| > 0
    && Initial(run[0])
    && forall k {:trigger StepAt(run, k)} | 0 < k < |run| :: StepAt(run, k)
  }

  /** The move into position `k` of the run. */
  ghost predicate StepAt(run: seq<Cluster>, k: int)
    requires 0 < k < |run|
  {
    Next(run[k - 1], run[k])
  }
}
