/** The values that Raft nodes keep and exchange (src/dssd/raft.py, proto/spine.proto). */
module RaftTypes {
  import opened World

  type NodeId = string

  /** No node: the initial value of a vote or of a leader hint. */
  const NOBODY: NodeId := ""

  /** What a log entry carries. `NoOp` is the empty command that a new leader
      appends; `Snapshot` stands for the non-empty encoding of a shard's agents. */
  datatype Command = NoOp | Snapshot(agents: Agents)

  datatype Entry = Entry(term: nat, index: nat, command: Command)

  type Log = seq<Entry>

  /** Every log starts with this entry. */
  const SENTINEL: Entry := Entry(0, 0, NoOp)

  datatype Role = Follower | Candidate | Leader

  datatype RequestVoteArgs = RequestVoteArgs(term: nat, candidateId: NodeId, lastLogIndex: nat, lastLogTerm: nat)

  datatype RequestVoteReply = RequestVoteReply(term: nat, voteGranted: bool)

  datatype AppendEntriesArgs = AppendEntriesArgs(
    term: nat, leaderId: NodeId, prevLogIndex: nat, prevLogTerm: nat, entries: Log, leaderCommit: nat)

  datatype AppendEntriesReply = AppendEntriesReply(term: nat, success: bool)

  /** Everything a node holds between two atomic steps. `votes` is the counter
      of the running election, `applied` the entries handed to the apply
      callback so far, `running` whether the node's tasks are alive. */
  datatype NodeState = NodeState(
    id: NodeId,
    peers: seq<NodeId>,
    currentTerm: nat,
    votedFor: NodeId,
    log: Log,
    role: Role,
    leaderId: NodeId,
    commitIndex: nat,
    lastApplied: nat,
    nextIndex: map<NodeId, nat>,
    matchIndex: map<NodeId, nat>,
    votes: nat,
    applySignal: bool,
    applied: Log,
    running: bool)
}
