/** The promises of Raft, for every run of a group: any elections, any losses,
    delays, duplicates and reorderings, nodes stopping and starting at will. */
module RaftSafety {
  import opened RaftTypes
  import opened RaftSpec
  import opened RaftCluster
  import opened RaftInvariant
  import opened RaftFrames
  import opened RaftCompleteness
  import opened RaftNodeSteps
  import opened RaftReplicationSteps
  import opened RaftPreservation

  // ---------- runs ----------

  lemma {:induction false} RunInvariant(run: seq<Cluster>, k: nat)
    requires Run(run) && k < |run|
    ensures Invariant(run[k])
  {
    if k == 0 {
      InitialOk(run[0]);
    } else {
      RunInvariant(run, k - 1);
      assert StepAt(run, k);
      NextKeepsInvariant(run[k - 1], run[k]);
    }
  }

  /** No step that the program can take in a reachable group trips over a
      missing key or an index out of range. */
  lemma NoStepFails(run: seq<Cluster>, k: nat, step: Step)
    requires Run(run) && k < |run| && Possible(run[k], step)
    ensures Defined(run[k], step)
  {
    RunInvariant(run, k);
    var c := run[k];
    var s := c.nodes[Actor(step)];
    assert NodeOk(c.history, c.nodes.Keys, s);
    if step.SendAppend? && s.role == Leader {
      assert PeerOk(c.history, s, step.peer);
    } else if step.GetAppendReply? && s.role == Leader {
      assert AppendCallOk(c.history, c.nodes.Keys, step.appendCall);
      assert PeerOk(c.history, s, step.appendCall.dst);
    }
  }

  /** What never goes back at one node: its term, its commit index and what it delivered. */
  ghost predicate Later(s: NodeState, s': NodeState) {
    && s'.id == s.id && s'.peers == s.peers
    && s.currentTerm <= s'.currentTerm
    && (s'.currentTerm == s.currentTerm && s.votedFor != NOBODY ==> s'.votedFor == s.votedFor)
    && s.commitIndex <= s'.commitIndex
    && s.lastApplied <= s'.lastApplied
    && s.applied <= s'.applied
  }

  ghost predicate LaterCluster(c: Cluster, c': Cluster) {
    AllForward(c, c') && Continues(c.history, c'.history)
  }

  lemma ContinuesTrans(h: History, h1: History, h2: History)
    requires Continues(h, h1) && Continues(h1, h2)
    ensures Continues(h, h2)
  {
    forall t | t in h.reigns
      ensures t in h2.reigns && ReignExtends(h.reigns[t], h2.reigns[t])
    {
      var a, b, c := h.reigns[t].log, h1.reigns[t].log, h2.reigns[t].log;
      assert ReignExtends(h.reigns[t], h1.reigns[t]) && ReignExtends(h1.reigns[t], h2.reigns[t]);
      AgreeShorter(b, c, |b|, |a|);
      AgreeTrans(a, b, c, |a|);
    }
  }

  lemma ServedVoteForward(s: NodeState, args: RequestVoteArgs)
    requires |s.log| > 0
    ensures Later(s, HandleRequestVote(s, args).0)
  {}

  lemma VoteReplyForward(s: NodeState, term: nat, reply: RequestVoteReply)
    ensures Later(s, ReceiveVoteReply(s, term, reply))
  {}

  lemma ServedAppendForward(s: NodeState, args: AppendEntriesArgs)
    requires args.leaderCommit <= args.prevLogIndex + |args.entries|
    ensures Later(s, HandleAppendEntries(s, args).0)
  {
    if AcceptsAppend(s, args) {
      assert |TakeAppend(Follow(s, args), args).log| > args.prevLogIndex + |args.entries|;
    }
  }

  lemma AppendReplyForward(s: NodeState, p: NodeId, args: AppendEntriesArgs, reply: AppendEntriesReply)
    requires |s.log| > 0 && (s.role == Leader ==> CanReplicate(s, p))
    ensures Later(s, ReceiveAppendReply(s, p, args, reply))
  {}

  ghost predicate OneMoved(c: Cluster, c': Cluster, n: NodeId)
    requires n in c.nodes
  {
    n in c'.nodes && c'.nodes == c.nodes[n := c'.nodes[n]] && Later(c.nodes[n], c'.nodes[n])
  }

  ghost predicate AllForward(c: Cluster, c': Cluster) {
    c'.nodes.Keys == c.nodes.Keys && forall n | n in c.nodes :: Later(c.nodes[n], c'.nodes[n])
  }

  lemma OneMovedIsForward(c: Cluster, c': Cluster, n: NodeId)
    requires n in c.nodes && OneMoved(c, c', n)
    ensures AllForward(c, c')
  {}

  /** Taken alone, a step moves its actor forward and no other node. */
  lemma StepMovesForward(c: Cluster, step: Step)
    requires Possible(c, step) && Defined(c, step)
    requires c.nodes[Actor(step)].lastApplied <= c.nodes[Actor(step)].commitIndex
    requires step.ServeAppend? ==>
               step.appendCall.args.leaderCommit <= step.appendCall.args.prevLogIndex + |step.appendCall.args.entries|
    ensures OneMoved(c, After(c, step), Actor(step))
  {
    var s := c.nodes[Actor(step)];
    match step
    case ServeVote(call) => ServedVoteForward(s, call.args);
    case GetVoteReply(call, reply) => VoteReplyForward(s, call.args.term, reply);
    case ServeAppend(call) => ServedAppendForward(s, call.args);
    case GetAppendReply(call, reply) => AppendReplyForward(s, call.dst, call.args, reply);
    case _ =>
  }

  lemma StepFacts(c: Cluster, step: Step)
    requires Invariant(c) && Possible(c, step)
    ensures c.nodes[Actor(step)].lastApplied <= c.nodes[Actor(step)].commitIndex
    ensures step.ServeAppend? ==>
              step.appendCall.args.leaderCommit <= step.appendCall.args.prevLogIndex + |step.appendCall.args.entries|
  {
    assert NodeOk(c.history, c.nodes.Keys, c.nodes[Actor(step)]);
    assert step.ServeAppend? ==> AppendCallOk(c.history, c.nodes.Keys, step.appendCall);
  }

  lemma StepForward(c: Cluster, c': Cluster, step: Step)
    requires Invariant(c) && Possible(c, step) && Defined(c, step) && c' == After(c, step)
    ensures AllForward(c, c')
  {
    StepFacts(c, step);
    StepMovesForward(c, step);
    OneMovedIsForward(c, c', Actor(step));
  }

  lemma NodesMoveForward(c: Cluster, c': Cluster)
    requires Invariant(c) && Next(c, c')
    ensures AllForward(c, c')
  {
    if c' != c {
      var step :| Possible(c, step) && Defined(c, step) && c' == After(c, step);
      StepForward(c, c', step);
    }
  }

  lemma NextIsLater(c: Cluster, c': Cluster)
    requires Invariant(c) && Next(c, c')
    ensures LaterCluster(c, c')
  {
    NodesMoveForward(c, c');
    NextKeepsInvariant(c, c');
  }

  lemma LaterReflexive(c: Cluster)
    ensures LaterCluster(c, c)
  {
    forall t | t in c.history.reigns ensures ReignExtends(c.history.reigns[t], c.history.reigns[t]) {}
  }

  lemma MomentIsLater(run: seq<Cluster>, k: nat)
    requires Run(run) && 0 < k < |run|
    ensures LaterCluster(run[k - 1], run[k])
  {
    RunInvariant(run, k - 1);
    assert StepAt(run, k);
    NextIsLater(run[k - 1], run[k]);
  }

  lemma {:induction false} RunGoesOn(run: seq<Cluster>, j: nat, k: nat)
    requires Run(run) && j <= k < |run|
    ensures LaterCluster(run[j], run[k])
  {
    if j == k {
      LaterReflexive(run[j]);
    } else {
      RunGoesOn(run, j, k - 1);
      MomentIsLater(run, k);
      LaterTrans(run[j], run[k - 1], run[k]);
    }
  }

  lemma LaterTrans(a: Cluster, b: Cluster, c: Cluster)
    requires LaterCluster(a, b) && LaterCluster(b, c)
    ensures LaterCluster(a, c)
  {
    ContinuesTrans(a.history, b.history, c.history);
    forall n | n in a.nodes ensures Later(a.nodes[n], c.nodes[n]) {
      assert Later(a.nodes[n], b.nodes[n]) && Later(b.nodes[n], c.nodes[n]);
    }
  }

  // ---------- section 5.2: elections ----------

  /** Election safety: a term has one leader, in all of time. */
  lemma ElectionSafety(run: seq<Cluster>, j: nat, a: NodeId, k: nat, b: NodeId)
    requires Run(run) && j < |run| && k < |run|
    requires a in run[j].nodes && b in run[k].nodes
    requires run[j].nodes[a].role == Leader && run[k].nodes[b].role == Leader
    requires run[j].nodes[a].currentTerm == run[k].nodes[b].currentTerm
    ensures a == b
  {
    var (first, last) := if j <= k then (j, k) else (k, j);
    RunInvariant(run, j);
    RunInvariant(run, k);
    RunGoesOn(run, first, last);
    assert NodeOk(run[j].history, run[j].nodes.Keys, run[j].nodes[a]);
    assert NodeOk(run[k].history, run[k].nodes.Keys, run[k].nodes[b]);
    var t := run[j].nodes[a].currentTerm;
    assert ReignExtends(run[first].history.reigns[t], run[last].history.reigns[t]);
  }

  /** A vote never changes within a term, whatever happens to the node in between. */
  lemma OneVotePerTerm(run: seq<Cluster>, j: nat, k: nat, n: NodeId)
    requires Run(run) && j <= k < |run| && n in run[j].nodes && n in run[k].nodes
    requires run[k].nodes[n].currentTerm == run[j].nodes[n].currentTerm
    requires run[j].nodes[n].votedFor != NOBODY
    ensures run[k].nodes[n].votedFor == run[j].nodes[n].votedFor
  {
    RunGoesOn(run, j, k);
  }

  /** The integer that a candidate counts up is the number of distinct members,
      itself among them, that recorded their vote for it in this term. */
  lemma VoteCounterIsExact(run: seq<Cluster>, k: nat, n: NodeId)
    requires Run(run) && k < |run| && n in run[k].nodes && run[k].nodes[n].role == Candidate
    ensures run[k].nodes[n].votes == |Tally(run[k].history, n)| && n in Tally(run[k].history, n)
    ensures forall p | p in Tally(run[k].history, n) ::
              p in run[k].nodes && VotedFor(run[k].history, p, run[k].nodes[n].currentTerm, n)
  {
    RunInvariant(run, k);
    assert NodeOk(run[k].history, run[k].nodes.Keys, run[k].nodes[n]);
  }

  /** Two counts that reach `_majority()` share a member. */
  lemma QuorumsIntersect(ids: set<NodeId>, n: NodeId, peers: seq<NodeId>, m: NodeId, peers': seq<NodeId>,
                         a: set<NodeId>, b: set<NodeId>) returns (x: NodeId)
    requires n in ids && PeersOf(ids, n, peers) && m in ids && PeersOf(ids, m, peers')
    requires a <= ids && |a| >= MajoritySize(peers)
    requires b <= ids && |b| >= MajoritySize(peers')
    ensures x in a && x in b
  {
    GroupSize(ids, n, peers);
    GroupSize(ids, m, peers');
    x := MajoritiesMeet(a, b, ids);
  }

  // ---------- section 5.3: logs ----------

  /** A log that some node has, or that some request carries the tail of. */
  ghost predicate LogAt(c: Cluster, log: Log) {
    || (exists n :: n in c.nodes && log == c.nodes[n].log)
    || (exists call :: call in c.appendCalls && SentLog(c.history, call, log))
  }

  /** The log a request was cut from, up to its last entry. */
  ghost predicate SentLog(h: History, call: AppendCall, log: Log) {
    && |log| == call.args.prevLogIndex + 1 + |call.args.entries|
    && Agree(log, ReignLog(h, call.args.term), |log|)
    && log[call.args.prevLogIndex + 1..] == call.args.entries
    && log[call.args.prevLogIndex].term == call.args.prevLogTerm
  }

  /** Every request in the network is a cut of one such log. */
  lemma RequestsAreCuts(run: seq<Cluster>, k: nat, call: AppendCall)
    requires Run(run) && k < |run| && call in run[k].appendCalls
    ensures exists log :: SentLog(run[k].history, call, log)
  {
    RequestKnownAt(run, k, call);
    CutOut(run[k].history, call, ReignLog(run[k].history, call.args.term));
  }

  lemma RequestKnownAt(run: seq<Cluster>, k: nat, call: AppendCall)
    requires Run(run) && k < |run| && call in run[k].appendCalls
    ensures AppendCallOk(run[k].history, run[k].nodes.Keys, call)
  {
    RunInvariant(run, k);
  }

  lemma CutOut(h: History, call: AppendCall, full: Log)
    requires full == ReignLog(h, call.args.term) && call.args.prevLogIndex + |call.args.entries| < |full|
    requires full[call.args.prevLogIndex].term == call.args.prevLogTerm
    requires forall j | 0 <= j < |call.args.entries| :: call.args.entries[j] == full[call.args.prevLogIndex + 1 + j]
    ensures exists log :: SentLog(h, call, log)
  {
    var log := full[..call.args.prevLogIndex + 1 + |call.args.entries|];
    assert log[call.args.prevLogIndex + 1..] == call.args.entries;
    assert SentLog(h, call, log);
  }


  lemma LogAtFromLeaders(run: seq<Cluster>, k: nat, log: Log)
    requires Run(run) && k < |run| && LogAt(run[k], log)
    ensures FromLeaders(run[k].history, log)
  {
    RunInvariant(run, k);
    var h, ids := run[k].history, run[k].nodes.Keys;
    if n :| n in run[k].nodes && log == run[k].nodes[n].log {
      assert NodeOk(h, ids, run[k].nodes[n]);
    } else {
      var call :| call in run[k].appendCalls && SentLog(h, call, log);
      ReignLogFromLeaders(h, ids, call.args.term);
      PrefixFromLeaders(h, log, ReignLog(h, call.args.term));
    }
  }

  /** Log matching: two logs, of any nodes or requests and of any two moments,
      that agree on the term at an index agree on everything up to it. */
  lemma LogMatchingProperty(run: seq<Cluster>, j: nat, a: Log, k: nat, b: Log, i: nat)
    requires Run(run) && j <= k < |run| && LogAt(run[j], a) && LogAt(run[k], b)
    requires i < |a| && i < |b| && a[i].term == b[i].term
    ensures a[..i + 1] == b[..i + 1]
  {
    LogAtFromLeaders(run, j, a);
    LogAtFromLeaders(run, k, b);
    RunGoesOn(run, j, k);
    FromLeadersGrows(run[j].history, run[k].history, a);
    LogMatching(run[k].history, a, b, i);
    PrefixesEqual(a, b, i + 1);
  }

  lemma PrefixesEqual(a: Log, b: Log, k: nat)
    requires Agree(a, b, k)
    ensures a[..k] == b[..k]
  {}

  /** An entry's index is its place, terms never go down along a log, and the sentinel stays in front. */
  lemma LogShape(run: seq<Cluster>, k: nat, log: Log)
    requires Run(run) && k < |run| && LogAt(run[k], log)
    ensures forall i | 0 <= i < |log| :: log[i].index == i
    ensures forall i, j | 0 <= i <= j < |log| :: log[i].term <= log[j].term
    ensures |log| > 0 ==> log[0] == SENTINEL
  {
    RunInvariant(run, k);
    LogAtFromLeaders(run, k, log);
    LogFacts(run[k].history, run[k].nodes.Keys, log);
  }

  /** While a node leads a term its log only grows, and only by entries of that term. */
  lemma LeaderAppendsOnly(run: seq<Cluster>, j: nat, k: nat, n: NodeId)
    requires Run(run) && j <= k < |run| && n in run[j].nodes && n in run[k].nodes
    requires run[j].nodes[n].role == Leader && run[k].nodes[n].role == Leader
    requires run[j].nodes[n].currentTerm == run[k].nodes[n].currentTerm
    ensures run[j].nodes[n].log <= run[k].nodes[n].log
    ensures forall i | |run[j].nodes[n].log| <= i < |run[k].nodes[n].log| ::
              run[k].nodes[n].log[i].term == run[k].nodes[n].currentTerm
  {
    LeaderReign(run, j, n);
    LeaderReign(run, k, n);
    RunGoesOn(run, j, k);
    var t := run[j].nodes[n].currentTerm;
    var r, r' := run[j].history.reigns[t], run[k].history.reigns[t];
    assert ReignExtends(r, r');
    PrefixesEqual(r.log, r'.log, |r.log|);
    assert r.log[..|r.log|] == r.log;
  }

  /** A leader's log is the log of its reign. */
  lemma LeaderReign(run: seq<Cluster>, k: nat, n: NodeId)
    requires Run(run) && k < |run| && n in run[k].nodes && run[k].nodes[n].role == Leader
    ensures var h, s := run[k].history, run[k].nodes[n];
            && s.currentTerm in h.reigns
            && var r := h.reigns[s.currentTerm];
            && r.leader == n && r.log == s.log && |r.base| < |r.log| && Agree(r.base, r.log, |r.base|)
            && forall i | |r.base| <= i < |r.log| :: r.log[i].term == s.currentTerm
  {
    RunInvariant(run, k);
    assert NodeOk(run[k].history, run[k].nodes.Keys, run[k].nodes[n]);
    assert ReignOk(run[k].history, run[k].nodes.Keys, run[k].nodes[n].currentTerm);
  }

  /** The leader's notes about its peers are sound, in whatever order replies came:
      indices are in range, and a peer that is still in the leader's term holds
      the leader's log up to what is noted for it. */
  lemma BookkeepingIsSound(run: seq<Cluster>, k: nat, n: NodeId, p: NodeId)
    requires Run(run) && k < |run| && n in run[k].nodes && p in run[k].nodes && p != n
    requires run[k].nodes[n].role == Leader
    ensures var s, peer := run[k].nodes[n], run[k].nodes[p];
            && p in s.nextIndex && p in s.matchIndex
            && 1 <= s.nextIndex[p] <= |s.log| && s.matchIndex[p] < |s.log|
            && (peer.currentTerm == s.currentTerm ==>
                  s.matchIndex[p] < |peer.log| && peer.log[..s.matchIndex[p] + 1] == s.log[..s.matchIndex[p] + 1])
  {
    KnownAt(run, k, n);
    KnownAt(run, k, p);
    PeerAgrees(run[k].history, run[k].nodes.Keys, run[k].nodes[n], run[k].nodes[p]);
  }

  lemma HistoryKnownAt(run: seq<Cluster>, k: nat)
    requires Run(run) && k < |run|
    ensures HistoryOk(run[k].history, run[k].nodes.Keys)
  {
    RunInvariant(run, k);
  }

  lemma KnownAt(run: seq<Cluster>, k: nat, n: NodeId)
    requires Run(run) && k < |run| && n in run[k].nodes
    ensures HistoryOk(run[k].history, run[k].nodes.Keys) && run[k].nodes[n].id == n
    ensures NodeOk(run[k].history, run[k].nodes.Keys, run[k].nodes[n])
  {
    RunInvariant(run, k);
  }

  lemma PeerAgrees(h: History, ids: set<NodeId>, s: NodeState, peer: NodeState)
    requires HistoryOk(h, ids) && NodeOk(h, ids, s) && NodeOk(h, ids, peer) && s.role == Leader && peer.id != s.id
    ensures PeerOk(h, s, peer.id)
    ensures peer.currentTerm == s.currentTerm ==>
              var m := s.matchIndex[peer.id]; m < |peer.log| && peer.log[..m + 1] == s.log[..m + 1]
  {
    assert peer.id in s.peers && PeerOk(h, s, peer.id);
    var m := s.matchIndex[peer.id];
    if peer.currentTerm == s.currentTerm {
      if m > 0 {
        assert Acked(h, peer.id, s.currentTerm, m);
        assert Agree(s.log, peer.log, m + 1);
      } else {
        LogFacts(h, ids, s.log);
        LogFacts(h, ids, peer.log);
      }
      PrefixesEqual(s.log, peer.log, m + 1);
    }
  }

  // ---------- the commit clamp ----------

  /** Figure 2 of the Raft paper: commit up to the smaller of the leader's
      commit index and the index of the last new entry. */
  function Figure2Commit(s: NodeState, args: AppendEntriesArgs): nat {
    if args.leaderCommit > s.commitIndex then Min(args.leaderCommit, args.prevLogIndex + |args.entries|) else s.commitIndex
  }

  /** Clamping by the length of the whole log is Figure 2's rule for every request ever sent. */
  lemma ClampIsFigure2(run: seq<Cluster>, k: nat, call: AppendCall)
    requires Run(run) && k < |run| && call in run[k].appendCalls && call.dst in run[k].nodes
    requires AcceptsAppend(run[k].nodes[call.dst], call.args)
    ensures call.args.leaderCommit <= call.args.prevLogIndex + |call.args.entries|
    ensures HandleAppendEntries(run[k].nodes[call.dst], call.args).0.commitIndex == Figure2Commit(run[k].nodes[call.dst], call.args)
  {
    RunInvariant(run, k);
    assert AppendCallOk(run[k].history, run[k].nodes.Keys, call);
    ClampCondition(run[k].nodes[call.dst], call.args);
  }

  /** For arguments of any origin the two rules agree exactly if the leader's
      commit index is no news, or lies within what was verified, or the log ends there. */
  lemma ClampCondition(s: NodeState, args: AppendEntriesArgs)
    requires AcceptsAppend(s, args)
    ensures var s' := HandleAppendEntries(s, args).0;
            s'.commitIndex == Figure2Commit(s, args) <==>
              args.leaderCommit <= s.commitIndex
              || args.leaderCommit <= args.prevLogIndex + |args.entries|
              || |s'.log| == args.prevLogIndex + |args.entries| + 1
  {
    assert |TakeAppend(Follow(s, args), args).log| > args.prevLogIndex + |args.entries|;
  }

  // ---------- section 5.4: commits ----------

  /** Leader completeness: what any node knows to be committed is in the log of
      every leader of a later term, whenever that leader leads. */
  lemma LeadersHoldCommitted(run: seq<Cluster>, j: nat, a: NodeId, k: nat, b: NodeId)
    requires Run(run) && j < |run| && k < |run| && a in run[j].nodes && b in run[k].nodes
    requires run[k].nodes[b].role == Leader
    requires run[k].nodes[b].currentTerm > run[j].nodes[a].currentTerm
    ensures var s := run[j].nodes[a];
            s.commitIndex < |s.log| && s.log[..s.commitIndex + 1] <= run[k].nodes[b].log
  {
    var last := if j <= k then k else j;
    var s, s' := run[j].nodes[a], run[k].nodes[b];
    CommittedFrom(run, j, a, last);
    LeaderReign(run, k, b);
    HistoryKnownAt(run, last);
    RunGoesOn(run, k, last);
    var h, ids, t := run[last].history, run[last].nodes.Keys, s'.currentTerm;
    assert ReignExtends(run[k].history.reigns[t], h.reigns[t]);
    CommittedInBase(h, ids, s.currentTerm, s.log, s.commitIndex, t);
    var base := h.reigns[t].base;
    AgreeShorter(base, s'.log, |base|, s.commitIndex + 1);
    AgreeTrans(s.log, base, s'.log, s.commitIndex + 1);
    PrefixesEqual(s.log, s'.log, s.commitIndex + 1);
  }

  /** What was committed at some moment is still covered by a commit later on. */
  lemma CommittedFrom(run: seq<Cluster>, j: nat, a: NodeId, k: nat)
    requires Run(run) && j <= k < |run| && a in run[j].nodes
    ensures var s := run[j].nodes[a];
            s.commitIndex < |s.log| && CommittedUpTo(run[k].history, s.currentTerm, s.log, s.commitIndex)
  {
    RunInvariant(run, j);
    RunGoesOn(run, j, k);
    var s := run[j].nodes[a];
    assert NodeOk(run[j].history, run[j].nodes.Keys, s);
    CommittedGrows(run[j].history, run[k].history, s.currentTerm, s.currentTerm, s.log, s.commitIndex);
  }

  lemma CommittedInBase(h: History, ids: set<NodeId>, term: nat, log: Log, k: nat, t: nat)
    requires HistoryOk(h, ids)
    requires CommittedUpTo(h, term, log, k)
    requires term < t && t in h.reigns
    ensures Agree(log, h.reigns[t].base, k + 1)
  {
    var t0: nat, i: nat :| (t0, i) in h.commits && t0 <= term && k <= i && Agree(ReignLog(h, t0), log, k + 1);
    LeaderCompleteness(h, ids, t0, i, t);
    AgreeShorter(ReignLog(h, t0), h.reigns[t].base, i + 1, k + 1);
    AgreeTrans(log, ReignLog(h, t0), h.reigns[t].base, k + 1);
  }

  /** State machine safety: any two nodes, at any two moments, hold the same
      entries as far as both know them committed. */
  lemma StateMachineSafety(run: seq<Cluster>, j: nat, a: NodeId, k: nat, b: NodeId)
    requires Run(run) && j <= k < |run| && a in run[j].nodes && b in run[k].nodes
    ensures var s, s' := run[j].nodes[a], run[k].nodes[b];
            var m := Min(s.commitIndex, s'.commitIndex);
            m < |s.log| && m < |s'.log| && s.log[..m + 1] == s'.log[..m + 1]
  {
    var h, ids, s, s' := run[k].history, run[k].nodes.Keys, run[j].nodes[a], run[k].nodes[b];
    CommittedFrom(run, j, a, k);
    CommittedFrom(run, k, b, k);
    RunInvariant(run, k);
    CommittedPrefixesAgree(h, ids, s.currentTerm, s.log, s.commitIndex, s'.currentTerm, s'.log, s'.commitIndex);
    PrefixesEqual(s.log, s'.log, Min(s.commitIndex, s'.commitIndex) + 1);
  }

  /** What two nodes have handed to their state machines, at any two moments,
      is the same up to the length of the shorter. */
  lemma AppliedSequencesAgree(run: seq<Cluster>, j: nat, a: NodeId, k: nat, b: NodeId)
    requires Run(run) && j <= k < |run| && a in run[j].nodes && b in run[k].nodes
    ensures var x, y := run[j].nodes[a].applied, run[k].nodes[b].applied;
            x <= y || y <= x
  {
    StateMachineSafety(run, j, a, k, b);
    DeliveredInOrder(run, j, a);
    DeliveredInOrder(run, k, b);
    var s, s' := run[j].nodes[a], run[k].nodes[b];
    var m := Min(s.commitIndex, s'.commitIndex);
    forall i | 0 <= i < |s.applied| && i < |s'.applied| ensures s.applied[i] == s'.applied[i] {
      assert s.log[..m + 1][i + 1] == s'.log[..m + 1][i + 1];
    }
  }

  // ---------- delivery ----------

  /** Every index is delivered once and in order, never before it is committed,
      and a node with something left to deliver has its signal set. */
  lemma DeliveredInOrder(run: seq<Cluster>, k: nat, n: NodeId)
    requires Run(run) && k < |run| && n in run[k].nodes
    ensures var s := run[k].nodes[n];
            && s.lastApplied <= s.commitIndex < |s.log|
            && (s.lastApplied < s.commitIndex ==> s.applySignal)
            && |s.applied| == s.lastApplied
            && forall i | 0 <= i < |s.applied| :: s.applied[i] == s.log[i + 1] && s.applied[i].index == i + 1
  {
    RunInvariant(run, k);
    DeliveryFacts(run[k].history, run[k].nodes.Keys, run[k].nodes[n]);
  }

  lemma DeliveryFacts(h: History, ids: set<NodeId>, s: NodeState)
    requires HistoryOk(h, ids) && NodeOk(h, ids, s)
    ensures DeliveryOk(s) && |s.applied| == s.lastApplied
    ensures forall i | 0 <= i < |s.applied| :: s.applied[i] == s.log[i + 1] && s.applied[i].index == i + 1
  {
    LogFacts(h, ids, s.log);
  }

  /** Terms, commit indices and deliveries never go back, and a delivered entry stays delivered. */
  lemma NothingGoesBack(run: seq<Cluster>, j: nat, k: nat, n: NodeId)
    requires Run(run) && j <= k < |run| && n in run[j].nodes
    ensures n in run[k].nodes
    ensures run[j].nodes[n].currentTerm <= run[k].nodes[n].currentTerm
    ensures run[j].nodes[n].commitIndex <= run[k].nodes[n].commitIndex
    ensures run[j].nodes[n].applied <= run[k].nodes[n].applied
  {
    RunGoesOn(run, j, k);
  }

  /** One wake-up of a running applier with work to do is possible and leaves none. */
  lemma WakeUpDrains(run: seq<Cluster>, k: nat, n: NodeId)
    requires Run(run) && k < |run| && n in run[k].nodes && run[k].nodes[n].running
    requires run[k].nodes[n].lastApplied < run[k].nodes[n].commitIndex
    ensures Possible(run[k], ApplyCommitted(n)) && Defined(run[k], ApplyCommitted(n))
    ensures After(run[k], ApplyCommitted(n)).nodes[n].lastApplied == run[k].nodes[n].commitIndex
  {
    DeliveredInOrder(run, k, n);
    NoStepFails(run, k, ApplyCommitted(n));
  }

  // ---------- a group of one ----------

  /** Nobody is asked, nobody answers: what a lone node's group looks like for ever. */
  ghost predicate Alone(c: Cluster, n: NodeId) {
    && c.nodes.Keys == {n} && c.nodes[n].id == n && c.nodes[n].peers == []
    && c.nodes[n].role != Leader && |c.nodes[n].log| > 0
    && c.voteCalls == c.openVotes == {} && c.appendCalls == c.openAppends == {}
  }

  lemma StandsAlone(c: Cluster, n: NodeId)
    requires Alone(c, n) && Defined(c, ElectionTimeout(n))
    ensures Alone(AfterElectionTimeout(c, n), n)
  {
    assert VoteCalls(StartElection(c.nodes[n])) == {};
  }

  lemma StaysAlone(c: Cluster, step: Step, n: NodeId)
    requires Alone(c, n) && Possible(c, step) && Defined(c, step)
    ensures Alone(After(c, step), n)
  {
    assert Actor(step) in c.nodes.Keys;
    if step.ElectionTimeout? {
      StandsAlone(c, n);
    }
  }

  lemma NextAlone(c: Cluster, c': Cluster, n: NodeId)
    requires Alone(c, n) && Next(c, c')
    ensures Alone(c', n)
  {
    if c' != c {
      var step :| Possible(c, step) && Defined(c, step) && c' == After(c, step);
      StaysAlone(c, step, n);
    }
  }

  /** The winning vote is looked for only when a vote reply arrives, so a node
      without peers, its own majority, never leads. */
  lemma {:induction false} LoneNodeNeverLeads(run: seq<Cluster>, k: nat, n: NodeId)
    requires Run(run) && k < |run| && run[0].nodes.Keys == {n}
    ensures run[k].nodes.Keys == {n} && run[k].nodes[n].role != Leader
    ensures Alone(run[k], n)
  {
    if k == 0 {
      assert n in run[0].nodes.Keys;
      assert PeersOf({n}, n, run[0].nodes[n].peers);
      NobodyIn(run[0].nodes[n].peers, n);
    } else {
      LoneNodeNeverLeads(run, k - 1, n);
      assert StepAt(run, k);
      NextAlone(run[k - 1], run[k], n);
    }
  }

  lemma NobodyIn(peers: seq<NodeId>, n: NodeId)
    requires PeersOf({n}, n, peers)
    ensures peers == []
  {
    FirstIsIn(peers);
  }

  lemma FirstIsIn(peers: seq<NodeId>)
    ensures peers != [] ==> peers[0] in peers
  {}
}
