/** The invariant holds initially and every step of the group keeps it. */
module RaftPreservation {
  import opened RaftTypes
  import opened RaftSpec
  import opened RaftCluster
  import opened RaftInvariant
  import opened RaftFrames
  import opened RaftHistorySteps
  import opened RaftNodeSteps
  import opened RaftReplicationSteps

  // ---------- the start ----------

  lemma InitialHistoryOk(ids: set<NodeId>)
    requires ids != {} && NOBODY !in ids
    ensures HistoryOk(InitialHistory(ids), ids)
  {
    var h := InitialHistory(ids);
    assert ReignOk(h, ids, 0);
    assert h.commits.Keys == {(0, 0)};
    forall n | n in ids ensures Acked(h, n, 0, 0) { assert (n, 0) in h.acks; }
    assert |ids| > 0;
    assert CommitOk(h, ids, 0, 0);
  }

  lemma NewNodeOk(ids: set<NodeId>, n: NodeId, peers: seq<NodeId>)
    requires n in ids && PeersOf(ids, n, peers)
    ensures NodeOk(InitialHistory(ids), ids, NewNode(n, peers))
  {
    var h, s := InitialHistory(ids), NewNode(n, peers);
    assert FromLeaders(h, s.log) by { assert Rooted(h, s.log, 0); }
    assert (0, 0) in h.commits && Agree(ReignLog(h, 0), s.log, 1);
    assert CommittedUpTo(h, 0, s.log, 0);
    assert NodeKept(h, s) by {
      forall t: nat, i: nat | Acked(h, n, t, i)
        ensures t == 0 && Kept(h, s.log, t, i, 0)
      {
        assert Agree(ReignLog(h, 0), s.log, i + 1);
      }
    }
  }

  lemma InitialOk(c: Cluster)
    requires Initial(c)
    ensures Invariant(c)
  {
    InitialHistoryOk(c.nodes.Keys);
    forall n | n in c.nodes ensures c.nodes[n].id == n && NodeOk(c.history, c.nodes.Keys, c.nodes[n]) {
      NewNodeOk(c.nodes.Keys, n, c.nodes[n].peers);
    }
  }

  // ---------- one step ----------

  /** The acting node, and the history as its step leaves it, are as they should be. */
  ghost predicate ActorOk(c: Cluster, c': Cluster, n: NodeId) {
    && n in c.nodes && n in c'.nodes
    && c'.nodes == c.nodes[n := c'.nodes[n]] && c'.nodes[n].id == n
    && Grows(c.history, c'.history, n)
    && HistoryOk(c'.history, c.nodes.Keys)
    && NodeOk(c'.history, c.nodes.Keys, c'.nodes[n])
  }

  lemma ActorFrom(c: Cluster, c': Cluster, n: NodeId, s': NodeState)
    requires n in c.nodes && c'.nodes == c.nodes[n := s'] && s'.id == n
    requires Grows(c.history, c'.history, n) && HistoryOk(c'.history, c.nodes.Keys) && NodeOk(c'.history, c.nodes.Keys, s')
    ensures ActorOk(c, c', n)
  {}

  /** What is known about the node that acts and the history, apart from everything else. */
  lemma KnownOf(c: Cluster, n: NodeId)
    requires Invariant(c) && n in c.nodes
    ensures HistoryOk(c.history, c.nodes.Keys) && NodeOk(c.history, c.nodes.Keys, c.nodes[n])
    ensures c.nodes[n].id == n && NOBODY !in c.nodes.Keys
  {}

  lemma NodesStay(c: Cluster, c': Cluster, n: NodeId)
    requires HistoryOk(c.history, c.nodes.Keys) && NodesOk(c) && ActorOk(c, c', n)
    ensures NodesOk(c') && c'.nodes.Keys == c.nodes.Keys
  {
    assert c'.nodes.Keys == c.nodes.Keys;
    forall m | m in c'.nodes ensures c'.nodes[m].id == m && NodeOk(c'.history, c.nodes.Keys, c'.nodes[m]) {
      if m != n { NodeFrame(c.history, c'.history, c.nodes.Keys, n, c.nodes[m]); }
    }
  }

  /** Old messages stay good; what is left to show of a step is about new ones and the actor's open calls. */
  lemma MessagesStay(c: Cluster, c': Cluster, n: NodeId)
    requires MessagesOk(c) && Grows(c.history, c'.history, n)
    requires n in c.nodes && n in c'.nodes && c'.nodes == c.nodes[n := c'.nodes[n]]
    requires c.voteCalls <= c'.voteCalls && c.appendCalls <= c'.appendCalls
    requires forall call | call in c'.voteCalls && call !in c.voteCalls :: VoteCallOk(c'.history, c.nodes.Keys, call)
    requires forall call | call in c'.appendCalls && call !in c.appendCalls :: AppendCallOk(c'.history, c.nodes.Keys, call)
    requires forall call, reply | (call, reply) in c'.voteReplies && (call, reply) !in c.voteReplies ::
               call in c'.voteCalls && VoteReplyOk(c'.history, call, reply)
    requires forall call, reply | (call, reply) in c'.appendReplies && (call, reply) !in c.appendReplies ::
               call in c'.appendCalls && AppendReplyOk(c'.history, call, reply)
    requires forall call | call in c'.openVotes :: if call.src == n then call in c'.voteCalls && UncountedOk(c', call) else call in c.openVotes
    requires forall call | call in c'.openAppends :: call in c.openAppends || call in c'.appendCalls
    ensures MessagesOk(c')
  {
    var h, h', ids := c.history, c'.history, c.nodes.Keys;
    assert c'.nodes.Keys == ids;
    forall call | call in c'.voteCalls ensures VoteCallOk(h', ids, call) {
      if call in c.voteCalls { VoteCallFrame(h, h', ids, n, call); }
    }
    forall call | call in c'.appendCalls ensures AppendCallOk(h', ids, call) {
      if call in c.appendCalls { AppendCallFrame(h, h', ids, n, call); }
    }
    forall call, reply | (call, reply) in c'.voteReplies ensures call in c'.voteCalls && VoteReplyOk(h', call, reply) {
      if (call, reply) in c.voteReplies { VoteReplyFrame(h, h', n, call, reply); }
    }
    forall call, reply | (call, reply) in c'.appendReplies ensures call in c'.appendCalls && AppendReplyOk(h', call, reply) {
      if (call, reply) in c.appendReplies { AppendReplyFrame(h, h', n, call, reply); }
    }
    forall call | call in c'.openVotes ensures call in c'.voteCalls && UncountedOk(c', call) {
      if call.src != n {
        assert UncountedOk(c, call) && call in c.voteCalls;
        assert Tally(h', call.src) == Tally(h, call.src);
      }
    }
    forall call | call in c'.openAppends ensures call in c'.appendCalls {}
  }

  /** A candidate after the step was a candidate of the same election before it, with the same count. */
  ghost predicate NoNewCount(c: Cluster, c': Cluster, n: NodeId)
    requires n in c.nodes && n in c'.nodes
  {
    c'.nodes[n].role == Candidate ==>
      && c.nodes[n].role == Candidate && c'.nodes[n].currentTerm == c.nodes[n].currentTerm
      && Tally(c'.history, n) == Tally(c.history, n)
  }

  lemma StillUncounted(c: Cluster, c': Cluster, n: NodeId)
    requires MessagesOk(c) && n in c.nodes && n in c'.nodes && NoNewCount(c, c', n)
    requires c.voteCalls <= c'.voteCalls
    ensures forall call | call in c.openVotes && call.src == n :: call in c'.voteCalls && UncountedOk(c', call)
  {
    forall call | call in c.openVotes && call.src == n
      ensures call in c'.voteCalls && UncountedOk(c', call)
    {
      assert UncountedOk(c, call);
    }
  }

  /** A step that sends nothing new. */
  lemma AssembleQuiet(c: Cluster, c': Cluster, n: NodeId)
    requires Invariant(c) && ActorOk(c, c', n) && NoNewCount(c, c', n)
    requires c' == c.(nodes := c'.nodes, history := c'.history, openVotes := c'.openVotes, openAppends := c'.openAppends)
    requires c'.openVotes <= c.openVotes && c'.openAppends <= c.openAppends
    ensures Invariant(c')
  {
    NodesStay(c, c', n);
    StillUncounted(c, c', n);
    MessagesStay(c, c', n);
  }

  /** A step that answers a vote request or entries. */
  lemma AssembleAnswer(c: Cluster, c': Cluster, n: NodeId)
    requires Invariant(c) && ActorOk(c, c', n) && MessagesOk(c')
    ensures Invariant(c')
  {
    NodesStay(c, c', n);
  }

  lemma VoteAnswer(c: Cluster, c': Cluster, call: VoteCall, reply: RequestVoteReply)
    requires MessagesOk(c) && Grows(c.history, c'.history, call.dst)
    requires call.dst in c.nodes && call.dst in c'.nodes && c'.nodes == c.nodes[call.dst := c'.nodes[call.dst]]
    requires NoNewCount(c, c', call.dst)
    requires call in c.voteCalls && VoteReplyOk(c'.history, call, reply)
    requires c' == c.(nodes := c'.nodes, history := c'.history, voteReplies := c.voteReplies + {(call, reply)})
    ensures MessagesOk(c')
  {
    StillUncounted(c, c', call.dst);
    MessagesStay(c, c', call.dst);
  }

  lemma AppendAnswer(c: Cluster, c': Cluster, call: AppendCall, reply: AppendEntriesReply)
    requires MessagesOk(c) && Grows(c.history, c'.history, call.dst)
    requires call.dst in c.nodes && call.dst in c'.nodes && c'.nodes == c.nodes[call.dst := c'.nodes[call.dst]]
    requires NoNewCount(c, c', call.dst)
    requires call in c.appendCalls && AppendReplyOk(c'.history, call, reply)
    requires c' == c.(nodes := c'.nodes, history := c'.history, appendReplies := c.appendReplies + {(call, reply)})
    ensures MessagesOk(c')
  {
    StillUncounted(c, c', call.dst);
    MessagesStay(c, c', call.dst);
  }

  lemma StartStopOk(c: Cluster, step: Step)
    requires Invariant(c) && Possible(c, step) && Defined(c, step)
    requires step.StartNode? || step.StopNode?
    ensures Invariant(After(c, step)) && Continues(c.history, After(c, step).history)
  {
    var n, c' := step.n, After(c, step);
    var h, ids, s := c.history, c.nodes.Keys, c.nodes[n];
    GrowsReflexive(h, n);
    if step.StartNode? {
      FollowOk(h, ids, s, NOBODY);
      SameBeliefs(h, ids, s.(role := Follower, leaderId := NOBODY), Start(s));
    } else {
      SameBeliefs(h, ids, s, Stop(s));
    }
    AssembleQuiet(c, c', n);
  }

  lemma ElectionTimeoutKeeps(c: Cluster, n: NodeId)
    requires Invariant(c) && Possible(c, ElectionTimeout(n)) && Defined(c, ElectionTimeout(n))
    ensures Invariant(After(c, ElectionTimeout(n))) && Continues(c.history, After(c, ElectionTimeout(n)).history)
  {
    var c' := AfterElectionTimeout(c, n);
    var h, h', ids, s := c.history, c'.history, c.nodes.Keys, c.nodes[n];
    var s' := StartElection(s);
    ElectionTimeoutOk(h, ids, s);
    forall call | call in VoteCalls(s')
      ensures VoteCallOk(h', ids, call) && UncountedOk(c', call)
    {
      assert call.dst in s.peers && Tally(h', n) == {n};
    }
    forall call | call in c'.openVotes && call.src == n
      ensures call in c'.voteCalls && UncountedOk(c', call)
    {
      if call !in VoteCalls(s') {
        assert VoteCallOk(h, ids, call) && (n, call.args.term) in h.votes;
        assert call.args.term <= s.currentTerm;
      }
    }
    NodesStay(c, c', n);
    MessagesStay(c, c', n);
  }

  lemma ServeVoteKeeps(c: Cluster, call: VoteCall)
    requires Invariant(c) && Possible(c, ServeVote(call)) && Defined(c, ServeVote(call))
    ensures Invariant(After(c, ServeVote(call))) && Continues(c.history, After(c, ServeVote(call)).history)
  {
    var c' := AfterServeVote(c, call);
    ServeVoteActor(c, c', call);
    ServeVoteCount(c, c', call);
    VoteAnswer(c, c', call, HandleRequestVote(c.nodes[call.dst], call.args).1);
    AssembleAnswer(c, c', call.dst);
  }

  lemma ServeVoteActor(c: Cluster, c': Cluster, call: VoteCall)
    requires Invariant(c) && call in c.voteCalls && Defined(c, ServeVote(call)) && c' == AfterServeVote(c, call)
    ensures ActorOk(c, c', call.dst)
    ensures VoteReplyOk(c'.history, call, HandleRequestVote(c.nodes[call.dst], call.args).1)
  {
    assert VoteCallOk(c.history, c.nodes.Keys, call);
    ServeVoteOk(c.history, c.nodes.Keys, c.nodes[call.dst], call);
  }

  lemma GetVoteReplyKeeps(c: Cluster, call: VoteCall, reply: RequestVoteReply)
    requires Invariant(c) && Possible(c, GetVoteReply(call, reply)) && Defined(c, GetVoteReply(call, reply))
    ensures Invariant(After(c, GetVoteReply(call, reply))) && Continues(c.history, After(c, GetVoteReply(call, reply)).history)
  {
    var c' := AfterVoteReply(c, call, reply);
    VoteReplyActor(c, c', call, reply);
    OthersUncounted(c, c', call, reply);
    NodesStay(c, c', call.src);
    MessagesStay(c, c', call.src);
  }

  lemma VoteReplyParts(c: Cluster, call: VoteCall, reply: RequestVoteReply)
    requires Defined(c, GetVoteReply(call, reply))
    ensures var c', s := AfterVoteReply(c, call, reply), c.nodes[call.src];
            && c'.nodes == c.nodes[call.src := ReceiveVoteReply(s, call.args.term, reply)]
            && c'.history == RecordVoteReply(c.history, s, call, reply)
  {}

  lemma VoteReplyKnown(c: Cluster, call: VoteCall, reply: RequestVoteReply)
    requires MessagesOk(c) && Possible(c, GetVoteReply(call, reply))
    ensures VoteCallOk(c.history, c.nodes.Keys, call) && VoteReplyOk(c.history, call, reply) && UncountedOk(c, call)
  {}

  lemma VoteReplyActor(c: Cluster, c': Cluster, call: VoteCall, reply: RequestVoteReply)
    requires Invariant(c) && Possible(c, GetVoteReply(call, reply)) && Defined(c, GetVoteReply(call, reply))
    requires c' == AfterVoteReply(c, call, reply)
    ensures ActorOk(c, c', call.src)
  {
    VoteReplyParts(c, call, reply);
    VoteReplyKnown(c, call, reply);
    KnownOf(c, call.src);
    VoteReplyLeads(c.history, c'.history, c, c', call, reply);
  }

  lemma VoteReplyLeads(h: History, h': History, c: Cluster, c': Cluster, call: VoteCall, reply: RequestVoteReply)
    requires h == c.history && h' == c'.history && call.src in c.nodes && c.nodes[call.src].id == call.src
    requires HistoryOk(h, c.nodes.Keys) && NodeOk(h, c.nodes.Keys, c.nodes[call.src]) && NOBODY !in c.nodes.Keys
    requires VoteCallOk(h, c.nodes.Keys, call) && VoteReplyOk(h, call, reply) && UncountedOk(c, call)
    requires c'.nodes == c.nodes[call.src := ReceiveVoteReply(c.nodes[call.src], call.args.term, reply)]
    requires |c.nodes[call.src].log| > 0 && h' == RecordVoteReply(h, c.nodes[call.src], call, reply)
    ensures ActorOk(c, c', call.src)
  {
    var s := c.nodes[call.src];
    var s' := ReceiveVoteReply(s, call.args.term, reply);
    VoteReplyOkAfter(h, h', c.nodes.Keys, s, s', call, reply);
    ActorFrom(c, c', call.src, s');
  }


  /** Counting one reply leaves the candidate's other open calls uncounted: they went to other peers. */
  lemma OthersUncounted(c: Cluster, c': Cluster, call: VoteCall, reply: RequestVoteReply)
    requires MessagesOk(c) && Possible(c, GetVoteReply(call, reply)) && Defined(c, GetVoteReply(call, reply))
    requires call.src in c.nodes && c.nodes[call.src].id == call.src
    requires c' == AfterVoteReply(c, call, reply)
    ensures forall other | other in c'.openVotes && other.src == call.src :: other in c'.voteCalls && UncountedOk(c', other)
  {
    var s, s' := c.nodes[call.src], c'.nodes[call.src];
    forall other | other in c'.openVotes && other.src == call.src
      ensures other in c'.voteCalls && UncountedOk(c', other)
    {
      assert UncountedOk(c, other);
      SameCall(c, call, other);
    }
  }

  lemma SameCall(c: Cluster, a: VoteCall, b: VoteCall)
    requires MessagesOk(c) && a in c.voteCalls && b in c.voteCalls
    ensures a.src == b.src && a.dst == b.dst && a.args.term == b.args.term ==> a == b
  {
    assert VoteCallOk(c.history, c.nodes.Keys, a) && VoteCallOk(c.history, c.nodes.Keys, b);
  }

  lemma GiveUpOk(c: Cluster, step: Step)
    requires Invariant(c) && Possible(c, step) && Defined(c, step)
    requires step.GiveUpVote? || step.GiveUpAppend?
    ensures Invariant(After(c, step)) && Continues(c.history, After(c, step).history)
  {
    var n, c' := Actor(step), After(c, step);
    SameNodesOk(c, c', n);
    AssembleQuiet(c, c', n);
  }

  lemma ProposeKeeps(c: Cluster, n: NodeId, command: Command)
    requires Invariant(c) && Possible(c, ProposeCommand(n, command)) && Defined(c, ProposeCommand(n, command))
    ensures Invariant(After(c, ProposeCommand(n, command))) && Continues(c.history, After(c, ProposeCommand(n, command)).history)
  {
    var c' := AfterPropose(c, n, command);
    GrowsReflexive(c.history, n);
    if c.nodes[n].role == Leader {
      ProposeOk(c.history, c.nodes.Keys, c.nodes[n], command);
    }
    AssembleQuiet(c, c', n);
  }

  lemma SendAppendKeeps(c: Cluster, n: NodeId, peer: NodeId)
    requires Invariant(c) && Possible(c, SendAppend(n, peer)) && Defined(c, SendAppend(n, peer))
    ensures Invariant(After(c, SendAppend(n, peer))) && Continues(c.history, After(c, SendAppend(n, peer)).history)
  {
    var c' := AfterSendAppend(c, n, peer);
    SendAppendActor(c, c', n, peer);
    SendAppendMessages(c, c', n, peer);
    AssembleAnswer(c, c', n);
  }

  lemma SendAppendActor(c: Cluster, c': Cluster, n: NodeId, peer: NodeId)
    requires Invariant(c) && Possible(c, SendAppend(n, peer)) && Defined(c, SendAppend(n, peer)) && c' == AfterSendAppend(c, n, peer)
    ensures ActorOk(c, c', n) && CanReplicate(c.nodes[n], peer)
    ensures AppendCallOk(c.history, c.nodes.Keys, AppendCall(c.sends, n, peer, AppendRequest(c.nodes[n], peer)))
  {
    assert NodeOk(c.history, c.nodes.Keys, c.nodes[n]);
    SendAppendOk(c.history, c.nodes.Keys, c.nodes[n], peer, c.sends);
    SameNodesOk(c, c', n);
  }

  lemma SendAppendMessages(c: Cluster, c': Cluster, n: NodeId, peer: NodeId)
    requires MessagesOk(c) && ActorOk(c, c', n) && Defined(c, SendAppend(n, peer)) && c' == AfterSendAppend(c, n, peer)
    requires CanReplicate(c.nodes[n], peer)
    requires AppendCallOk(c.history, c.nodes.Keys, AppendCall(c.sends, n, peer, AppendRequest(c.nodes[n], peer)))
    ensures MessagesOk(c')
  {
    StillUncounted(c, c', n);
    MessagesStay(c, c', n);
  }

  lemma SameNodesOk(c: Cluster, c': Cluster, n: NodeId)
    requires Invariant(c) && n in c.nodes && c'.nodes == c.nodes && c'.history == c.history
    ensures ActorOk(c, c', n)
  {
    GrowsReflexive(c.history, n);
  }

  lemma ServeAppendKeeps(c: Cluster, call: AppendCall)
    requires Invariant(c) && Possible(c, ServeAppend(call)) && Defined(c, ServeAppend(call))
    ensures Invariant(After(c, ServeAppend(call))) && Continues(c.history, After(c, ServeAppend(call)).history)
  {
    var c' := AfterServeAppend(c, call);
    ServeAppendActor(c, c', call);
    ServeAppendCount(c, c', call);
    AppendAnswer(c, c', call, HandleAppendEntries(c.nodes[call.dst], call.args).1);
    AssembleAnswer(c, c', call.dst);
  }

  lemma ServeAppendActor(c: Cluster, c': Cluster, call: AppendCall)
    requires Invariant(c) && call in c.appendCalls && Defined(c, ServeAppend(call)) && c' == AfterServeAppend(c, call)
    ensures ActorOk(c, c', call.dst)
    ensures AppendReplyOk(c'.history, call, HandleAppendEntries(c.nodes[call.dst], call.args).1)
  {
    var (s', reply) := HandleAppendEntries(c.nodes[call.dst], call.args);
    assert AppendCallOk(c.history, c.nodes.Keys, call);
    ServeAppendParts(c, c', call, s', reply);
    ServeAppendOk(c.history, c'.history, c.nodes.Keys, c.nodes[call.dst], s', call, reply);
  }

  lemma ServeAppendParts(c: Cluster, c': Cluster, call: AppendCall, s': NodeState, reply: AppendEntriesReply)
    requires Defined(c, ServeAppend(call)) && c' == AfterServeAppend(c, call)
    requires (s', reply) == HandleAppendEntries(c.nodes[call.dst], call.args)
    ensures s'.id == c.nodes[call.dst].id && c'.nodes == c.nodes[call.dst := s']
    ensures c'.history == if reply.success
                          then RecordAck(c.history, call.dst, call.args.term, call.args.prevLogIndex + |call.args.entries|)
                          else c.history
  {}

  lemma GetAppendReplyKeeps(c: Cluster, call: AppendCall, reply: AppendEntriesReply)
    requires Invariant(c) && Possible(c, GetAppendReply(call, reply)) && Defined(c, GetAppendReply(call, reply))
    ensures Invariant(After(c, GetAppendReply(call, reply))) && Continues(c.history, After(c, GetAppendReply(call, reply)).history)
  {
    var c' := AfterAppendReply(c, call, reply);
    AppendReplyActor(c, c', call, reply);
    AppendReplyCount(c, c', call, reply);
    AssembleQuiet(c, c', call.src);
  }

  lemma AppendReplyParts(c: Cluster, call: AppendCall, reply: AppendEntriesReply)
    requires Defined(c, GetAppendReply(call, reply))
    ensures var c', s := AfterAppendReply(c, call, reply), c.nodes[call.src];
            var s' := ReceiveAppendReply(s, call.dst, call.args, reply);
            c'.nodes == c.nodes[call.src := s'] && c'.history == RecordAdvance(c.history, s, s')
  {}

  lemma AppendReplyKnown(c: Cluster, call: AppendCall, reply: AppendEntriesReply)
    requires MessagesOk(c) && Possible(c, GetAppendReply(call, reply))
    ensures AppendCallOk(c.history, c.nodes.Keys, call) && AppendReplyOk(c.history, call, reply)
  {}

  lemma AppendReplyActor(c: Cluster, c': Cluster, call: AppendCall, reply: AppendEntriesReply)
    requires Invariant(c) && Possible(c, GetAppendReply(call, reply)) && Defined(c, GetAppendReply(call, reply))
    requires c' == AfterAppendReply(c, call, reply)
    ensures ActorOk(c, c', call.src)
  {
    AppendReplyParts(c, call, reply);
    AppendReplyKnown(c, call, reply);
    KnownOf(c, call.src);
    AppendReplyLeads(c, c', call, reply);
  }

  lemma AppendReplyLeads(c: Cluster, c': Cluster, call: AppendCall, reply: AppendEntriesReply)
    requires call.src in c.nodes && c.nodes[call.src].id == call.src
    requires HistoryOk(c.history, c.nodes.Keys) && NodeOk(c.history, c.nodes.Keys, c.nodes[call.src])
    requires AppendCallOk(c.history, c.nodes.Keys, call) && AppendReplyOk(c.history, call, reply)
    requires var s := c.nodes[call.src];
             && |s.log| > 0 && (s.role == Leader ==> CanReplicate(s, call.dst))
             && var s' := ReceiveAppendReply(s, call.dst, call.args, reply);
                c'.nodes == c.nodes[call.src := s'] && c'.history == RecordAdvance(c.history, s, s')
    ensures ActorOk(c, c', call.src)
  {
    var s := c.nodes[call.src];
    AppendReplyOkAfter(c.history, c.nodes.Keys, s, call, reply);
    ActorFrom(c, c', call.src, ReceiveAppendReply(s, call.dst, call.args, reply));
  }

  lemma ApplyKeeps(c: Cluster, n: NodeId)
    requires Invariant(c) && Possible(c, ApplyCommitted(n)) && Defined(c, ApplyCommitted(n))
    ensures Invariant(After(c, ApplyCommitted(n))) && Continues(c.history, After(c, ApplyCommitted(n)).history)
  {
    var c' := After(c, ApplyCommitted(n));
    GrowsReflexive(c.history, n);
    ApplyOk(c.history, c.nodes.Keys, c.nodes[n]);
    AssembleQuiet(c, c', n);
  }

  lemma ServeVoteCount(c: Cluster, c': Cluster, call: VoteCall)
    requires call.dst in c.nodes && Defined(c, ServeVote(call)) && c' == AfterServeVote(c, call)
    ensures NoNewCount(c, c', call.dst)
  {}

  lemma ServeAppendCount(c: Cluster, c': Cluster, call: AppendCall)
    requires call.dst in c.nodes && Defined(c, ServeAppend(call)) && c' == AfterServeAppend(c, call)
    ensures NoNewCount(c, c', call.dst)
  {}

  lemma AppendReplyCount(c: Cluster, c': Cluster, call: AppendCall, reply: AppendEntriesReply)
    requires call.src in c.nodes && Defined(c, GetAppendReply(call, reply)) && c' == AfterAppendReply(c, call, reply)
    ensures NoNewCount(c, c', call.src)
  {}

  /** Every step of the group keeps the invariant. */
  lemma StepKeepsInvariant(c: Cluster, step: Step)
    requires Invariant(c) && Possible(c, step) && Defined(c, step)
    ensures Invariant(After(c, step)) && Continues(c.history, After(c, step).history)
  {
    match step
    case StartNode(_) => StartStopOk(c, step);
    case StopNode(_) => StartStopOk(c, step);
    case ElectionTimeout(n) => ElectionTimeoutKeeps(c, n);
    case ServeVote(call) => ServeVoteKeeps(c, call);
    case GetVoteReply(call, reply) => GetVoteReplyKeeps(c, call, reply);
    case GiveUpVote(_) => GiveUpOk(c, step);
    case ProposeCommand(n, command) => ProposeKeeps(c, n, command);
    case SendAppend(n, peer) => SendAppendKeeps(c, n, peer);
    case ServeAppend(call) => ServeAppendKeeps(c, call);
    case GetAppendReply(call, reply) => GetAppendReplyKeeps(c, call, reply);
    case GiveUpAppend(_) => GiveUpOk(c, step);
    case ApplyCommitted(n) => ApplyKeeps(c, n);
  }

  lemma NextKeepsInvariant(c: Cluster, c': Cluster)
    requires Invariant(c) && Next(c, c')
    ensures Invariant(c') && Continues(c.history, c'.history)
  {
    if c' != c {
      var step :| Possible(c, step) && Defined(c, step) && c' == After(c, step);
      StepKeepsInvariant(c, step);
    } else {
      GrowsReflexive(c.history, NOBODY);
    }
  }
}
