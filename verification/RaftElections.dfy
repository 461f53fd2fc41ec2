/** When an election is won: as soon as a majority of the group was counted, and not before. */
module RaftElections {
  import opened RaftTypes
  import opened RaftSpec
  import opened RaftCluster
  import opened RaftInvariant
  import opened RaftNodeSteps
  import opened RaftPreservation
  import opened RaftSafety
  import opened Ways

  // ---------- no candidate waits with a majority ----------

  /** A candidate that is not alone still lacks votes. */
  predicate Short(s: NodeState) {
    s.role == Candidate && s.peers != [] ==> s.votes < MajoritySize(s.peers)
  }

  ghost predicate AllShort(c: Cluster) {
    forall n | n in c.nodes :: Short(c.nodes[n])
  }

  lemma VotingStaysShort(s: NodeState, args: RequestVoteArgs, term: nat, reply: RequestVoteReply)
    requires Short(s) && |s.log| > 0
    ensures Short(HandleRequestVote(s, args).0) && Short(ReceiveVoteReply(s, term, reply))
  {}

  lemma AppendingStaysShort(s: NodeState, args: AppendEntriesArgs)
    requires Short(s)
    ensures Short(HandleAppendEntries(s, args).0)
  {}

  lemma AnswerStaysShort(s: NodeState, p: NodeId, args: AppendEntriesArgs, reply: AppendEntriesReply)
    requires Short(s) && |s.log| > 0 && (s.role == Leader ==> CanReplicate(s, p))
    ensures Short(ReceiveAppendReply(s, p, args, reply))
  {}

  lemma StepStaysShort(c: Cluster, step: Step)
    requires AllShort(c) && Possible(c, step) && Defined(c, step)
    ensures AllShort(After(c, step))
  {
    var s := c.nodes[Actor(step)];
    match step
    case ServeVote(call) => VotingStaysShort(s, call.args, 0, RequestVoteReply(0, false));
    case GetVoteReply(call, reply) => VotingStaysShort(s, call.args.(term := 0), call.args.term, reply);
    case ServeAppend(call) => AppendingStaysShort(s, call.args);
    case GetAppendReply(call, reply) => AnswerStaysShort(s, call.dst, call.args, reply);
    case _ =>
  }

  lemma NextStaysShort(c: Cluster, c': Cluster)
    requires AllShort(c) && Next(c, c')
    ensures AllShort(c')
  {
    if c' != c {
      var step :| Possible(c, step) && Defined(c, step) && c' == After(c, step);
      StepStaysShort(c, step);
    }
  }

  lemma {:induction false} AlwaysShort(run: seq<Cluster>, k: nat)
    requires Run(run) && k < |run|
    ensures AllShort(run[k])
  {
    if k > 0 {
      AlwaysShort(run, k - 1);
      assert StepAt(run, k);
      NextStaysShort(run[k - 1], run[k]);
    }
  }

  lemma TallyIsShort(h: History, ids: set<NodeId>, s: NodeState)
    requires NodeOk(h, ids, s) && Short(s) && s.role == Candidate && |ids| > 1
    ensures 2 * |Tally(h, s.id)| <= |ids|
  {
    GroupSize(ids, s.id, s.peers);
  }

  /** Nobody who has been counted a majority of the group is left a candidate. */
  lemma NoCandidateHasMajority(run: seq<Cluster>, k: nat, n: NodeId)
    requires Run(run) && k < |run| && n in run[k].nodes && run[k].nodes[n].role == Candidate && |run[k].nodes| > 1
    ensures 2 * |Tally(run[k].history, n)| <= |run[k].nodes|
  {
    RunInvariant(run, k);
    AlwaysShort(run, k);
    KnownOf(run[k], n);
    TallyIsShort(run[k].history, run[k].nodes.Keys, run[k].nodes[n]);
  }

  // ---------- a majority wins ----------

  /** Who grants a vote answers in the term it was asked for. */
  ghost predicate GrantsInTerm(c: Cluster) {
    forall call, reply | (call, reply) in c.voteReplies && reply.voteGranted :: reply.term == call.args.term
  }

  lemma GrantIsInTerm(s: NodeState, args: RequestVoteArgs)
    requires |s.log| > 0
    ensures var reply := HandleRequestVote(s, args).1; reply.voteGranted ==> reply.term == args.term
  {}

  lemma NextGrantsInTerm(c: Cluster, c': Cluster)
    requires GrantsInTerm(c) && Next(c, c')
    ensures GrantsInTerm(c')
  {
    if c' != c {
      var step :| Possible(c, step) && Defined(c, step) && c' == After(c, step);
      if step.ServeVote? {
        GrantIsInTerm(c.nodes[step.voteCall.dst], step.voteCall.args);
      }
    }
  }

  lemma {:induction false} AlwaysGrantsInTerm(run: seq<Cluster>, k: nat)
    requires Run(run) && k < |run|
    ensures GrantsInTerm(run[k])
  {
    if k > 0 {
      AlwaysGrantsInTerm(run, k - 1);
      assert StepAt(run, k);
      NextGrantsInTerm(run[k - 1], run[k]);
    }
  }

  /** Counting one more vote, in terms of who was counted. */
  lemma CountedVote(h: History, ids: set<NodeId>, s: NodeState, voter: NodeId, reply: RequestVoteReply)
    requires NodeOk(h, ids, s) && s.role == Candidate && voter in ids && voter !in Tally(h, s.id)
    requires reply.voteGranted && reply.term == s.currentTerm
    ensures ReceiveVoteReply(s, s.currentTerm, reply).role ==
            if 2 * |Tally(h, s.id) + {voter}| > |ids| then Leader else Candidate
  {
    GroupSize(ids, s.id, s.peers);
    assert |Tally(h, s.id) + {voter}| == |Tally(h, s.id)| + 1;
  }

  /** The granted vote that makes the counted ones a majority of the group makes the
      candidate the leader of its term, and any earlier one leaves it a candidate. */
  lemma MajorityWins(run: seq<Cluster>, k: nat, call: VoteCall, reply: RequestVoteReply)
    requires Run(run) && k < |run| && Possible(run[k], GetVoteReply(call, reply)) && reply.voteGranted
    requires run[k].nodes[call.src].role == Candidate && run[k].nodes[call.src].currentTerm == call.args.term
    ensures Defined(run[k], GetVoteReply(call, reply))
    ensures After(run[k], GetVoteReply(call, reply)).nodes[call.src].role ==
            if 2 * |Tally(run[k].history, call.src) + {call.dst}| > |run[k].nodes| then Leader else Candidate
    ensures call.dst !in Tally(run[k].history, call.src)
  {
    var c := run[k];
    NoStepFails(run, k, GetVoteReply(call, reply));
    RunInvariant(run, k);
    AlwaysGrantsInTerm(run, k);
    KnownOf(c, call.src);
    assert VoteCallOk(c.history, c.nodes.Keys, call) && UncountedOk(c, call);
    CountedVote(c.history, c.nodes.Keys, c.nodes[call.src], call.dst, reply);
  }

  // ---------- newer terms ----------

  /** The term that a message or a reply tells its receiver. */
  function ToldTerm(step: Step): nat {
    match step
    case ServeVote(call) => call.args.term
    case GetVoteReply(_, reply) => reply.term
    case ServeAppend(call) => call.args.term
    case GetAppendReply(_, reply) => reply.term
    case _ => 0
  }

  /** Whoever hears of a newer term, by any message, follows in it and gives up what it was. */
  lemma NewerTermIsAdopted(run: seq<Cluster>, k: nat, step: Step)
    requires Run(run) && k < |run| && Possible(run[k], step) && ToldTerm(step) > run[k].nodes[Actor(step)].currentTerm
    ensures Defined(run[k], step)
    ensures var s' := After(run[k], step).nodes[Actor(step)];
            s'.currentTerm == ToldTerm(step) && s'.role == Follower
  {
    NoStepFails(run, k, step);
    Adopts(run[k], step);
  }

  lemma Adopts(c: Cluster, step: Step)
    requires Possible(c, step) && Defined(c, step) && ToldTerm(step) > c.nodes[Actor(step)].currentTerm
    ensures var s' := After(c, step).nodes[Actor(step)];
            s'.currentTerm == ToldTerm(step) && s'.role == Follower
  {}

  /** Every reply tells the term of the node that gave it, as it is after handling the request. */
  lemma RepliesTellTheTerm(s: NodeState, vote: RequestVoteArgs, append: AppendEntriesArgs)
    requires |s.log| > 0
    ensures HandleRequestVote(s, vote).1.term == HandleRequestVote(s, vote).0.currentTerm >= s.currentTerm
    ensures HandleAppendEntries(s, append).1.term == HandleAppendEntries(s, append).0.currentTerm >= s.currentTerm
  {}

  // ---------- the leader hint ----------

  /** The hint names nobody, or a leader of a term no later; and a leader's names itself. */
  ghost predicate HintOk(h: History, s: NodeState) {
    && (s.leaderId == NOBODY || exists t: nat :: Led(h, t, s.leaderId) && t <= s.currentTerm)
    && (s.role == Leader ==> s.leaderId == s.id)
  }

  ghost predicate Led(h: History, t: nat, n: NodeId) {
    t in h.reigns && h.reigns[t].leader == n
  }

  ghost predicate HintsOk(c: Cluster) {
    && (forall n | n in c.nodes :: HintOk(c.history, c.nodes[n]))
    && (forall call | call in c.appendCalls :: call.args.leaderId == call.src)
  }

  lemma HintStays(h: History, h': History, s: NodeState, s': NodeState)
    requires HintOk(h, s) && Continues(h, h') && s'.leaderId == s.leaderId && s'.currentTerm >= s.currentTerm
    requires s'.id == s.id && (s'.role == Leader ==> s.role == Leader)
    ensures HintOk(h', s')
  {
    if s.leaderId != NOBODY {
      var t: nat :| Led(h, t, s.leaderId) && t <= s.currentTerm;
      assert ReignExtends(h.reigns[t], h'.reigns[t]);
      assert Led(h', t, s.leaderId);
    }
  }

  lemma FollowsHint(h: History, ids: set<NodeId>, s: NodeState, call: AppendCall)
    requires HintOk(h, s) && AppendCallOk(h, ids, call) && call.args.leaderId == call.src
    ensures HintOk(h, HandleAppendEntries(s, call.args).0)
  {
    if call.args.term >= s.currentTerm {
      assert Led(h, call.args.term, call.src);
    }
  }

  lemma AppendRecords(h: History, h': History, s: NodeState)
    requires HintOk(h, s) && Continues(h, h')
    ensures HintOk(h', s)
  {
    HintStays(h, h', s, s);
  }

  lemma VoteReplyHint(h: History, s: NodeState, call: VoteCall, reply: RequestVoteReply)
    requires HintOk(h, s) && call.src == s.id && |s.log| > 0
    requires Continues(h, RecordVoteReply(h, s, call, reply))
    ensures HintOk(RecordVoteReply(h, s, call, reply), ReceiveVoteReply(s, call.args.term, reply))
  {
    var h', s' := RecordVoteReply(h, s, call, reply), ReceiveVoteReply(s, call.args.term, reply);
    if s'.role == Leader && s.role != Leader {
      assert Led(h', s.currentTerm, s.id);
    } else {
      HintStays(h, h', s, s');
    }
  }

  lemma ActorHint(c: Cluster, step: Step)
    requires Invariant(c) && HintsOk(c) && Possible(c, step) && Defined(c, step)
    requires Continues(c.history, After(c, step).history) && Actor(step) in After(c, step).nodes
    ensures HintOk(After(c, step).history, After(c, step).nodes[Actor(step)])
  {
    var s, s', h, h' := c.nodes[Actor(step)], After(c, step).nodes[Actor(step)], c.history, After(c, step).history;
    KnownOf(c, Actor(step));
    if step.GetVoteReply? {
      VoteReplyHint(h, s, step.voteCall, step.voteReply);
    } else if step.ServeAppend? {
      assert AppendCallOk(h, c.nodes.Keys, step.appendCall);
      FollowsHint(h, c.nodes.Keys, s, step.appendCall);
      AppendRecords(h, h', s');
    } else {
      OtherHint(c, step);
    }
  }

  /** The hint stays or is forgotten, and nobody becomes a leader. */
  ghost predicate SameHint(s: NodeState, s': NodeState) {
    && (s'.leaderId == s.leaderId || (s'.leaderId == NOBODY && s'.role != Leader))
    && s'.currentTerm >= s.currentTerm && s'.id == s.id && (s'.role == Leader ==> s.role == Leader)
  }

  lemma VoteHint(s: NodeState, args: RequestVoteArgs)
    requires |s.log| > 0
    ensures SameHint(s, HandleRequestVote(s, args).0)
  {}

  lemma AnswerHint(s: NodeState, p: NodeId, args: AppendEntriesArgs, reply: AppendEntriesReply)
    requires |s.log| > 0 && (s.role == Leader ==> CanReplicate(s, p))
    ensures SameHint(s, ReceiveAppendReply(s, p, args, reply))
  {}

  lemma OtherSameHint(c: Cluster, step: Step)
    requires Possible(c, step) && Defined(c, step) && !step.GetVoteReply? && !step.ServeAppend?
    requires Actor(step) in After(c, step).nodes
    ensures SameHint(c.nodes[Actor(step)], After(c, step).nodes[Actor(step)])
  {
    var s := c.nodes[Actor(step)];
    match step
    case ServeVote(call) => VoteHint(s, call.args);
    case GetAppendReply(call, reply) => AnswerHint(s, call.dst, call.args, reply);
    case _ =>
  }

  lemma OtherHint(c: Cluster, step: Step)
    requires HintsOk(c) && Possible(c, step) && Defined(c, step) && !step.GetVoteReply? && !step.ServeAppend?
    requires Continues(c.history, After(c, step).history) && Actor(step) in After(c, step).nodes
    ensures HintOk(After(c, step).history, After(c, step).nodes[Actor(step)])
  {
    var s, s' := c.nodes[Actor(step)], After(c, step).nodes[Actor(step)];
    OtherSameHint(c, step);
    if s'.leaderId == s.leaderId {
      HintStays(c.history, After(c, step).history, s, s');
    }
  }

  lemma CallsHint(c: Cluster, step: Step)
    requires Invariant(c) && HintsOk(c) && Possible(c, step) && Defined(c, step)
    ensures forall call | call in After(c, step).appendCalls :: call.args.leaderId == call.src
  {
    KnownOf(c, Actor(step));
  }

  lemma NextHints(c: Cluster, c': Cluster)
    requires Invariant(c) && HintsOk(c) && Next(c, c')
    ensures HintsOk(c')
  {
    if c' != c {
      var step :| Possible(c, step) && Defined(c, step) && c' == After(c, step);
      NextIsLater(c, c');
      ActorHint(c, step);
      CallsHint(c, step);
      OthersHint(c, c', step);
    }
  }

  lemma OthersHint(c: Cluster, c': Cluster, step: Step)
    requires HintsOk(c) && Possible(c, step) && Defined(c, step) && c' == After(c, step) && Continues(c.history, c'.history)
    requires Actor(step) in c'.nodes && HintOk(c'.history, c'.nodes[Actor(step)])
    ensures forall n | n in c'.nodes :: HintOk(c'.history, c'.nodes[n])
  {
    forall n | n in c'.nodes ensures HintOk(c'.history, c'.nodes[n]) {
      if n != Actor(step) {
        assert n in c.nodes && c'.nodes[n] == c.nodes[n];
        AppendRecords(c.history, c'.history, c.nodes[n]);
      }
    }
  }

  /** A move of a group that is as it should be. */
  ghost predicate GoodMove(c: Cluster, c': Cluster) {
    Invariant(c) && Next(c, c')
  }

  lemma RunMoves(run: seq<Cluster>, k: nat)
    requires Run(run) && 0 < k < |run|
    ensures GoodMove(run[k - 1], run[k])
  {
    RunInvariant(run, k - 1);
    assert StepAt(run, k);
  }

  lemma FirstHints(run: seq<Cluster>)
    requires Run(run)
    ensures HintsOk(run[0])
  {}

  lemma AlwaysHints(run: seq<Cluster>, k: nat)
    requires Run(run) && k < |run|
    ensures HintsOk(run[k])
  {
    var move, keeps := (c, c') => GoodMove(c, c'), c => HintsOk(c);
    FirstHints(run);
    forall j | 0 < j < |run| ensures MoveAt(move, run, j) {
      RunMoves(run, j);
    }
    forall c, c' | keeps(c) && move(c, c') ensures keeps(c') {
      NextHints(c, c');
    }
    AlongWay(move, run, keeps, k);
    assert keeps(run[k]);
  }

  /** Whom a node names as leader has led the node's own term or an earlier one; a leader names itself. */
  lemma HintIsALeader(run: seq<Cluster>, k: nat, n: NodeId) returns (t: nat)
    requires Run(run) && k < |run| && n in run[k].nodes && run[k].nodes[n].leaderId != NOBODY
    ensures t <= run[k].nodes[n].currentTerm && t in run[k].history.reigns
    ensures run[k].history.reigns[t].leader == run[k].nodes[n].leaderId
    ensures run[k].nodes[n].role == Leader ==> run[k].nodes[n].leaderId == n
  {
    AlwaysHints(run, k);
    RunInvariant(run, k);
    KnownOf(run[k], n);
    t :| Led(run[k].history, t, run[k].nodes[n].leaderId) && t <= run[k].nodes[n].currentTerm;
  }

  /** A restart makes a follower without a hint of what was a leader or a candidate, and loses nothing else. */
  lemma RestartFollows(run: seq<Cluster>, k: nat, n: NodeId)
    requires Run(run) && k < |run| && Possible(run[k], StartNode(n))
    ensures Defined(run[k], StartNode(n))
    ensures var s, s' := run[k].nodes[n], After(run[k], StartNode(n)).nodes[n];
            && s'.running && s'.role == Follower && s'.leaderId == NOBODY
            && s'.currentTerm == s.currentTerm && s'.votedFor == s.votedFor && s'.log == s.log
            && s'.commitIndex == s.commitIndex && s'.applied == s.applied
  {
    NoStepFails(run, k, StartNode(n));
  }
}
