/** That a majority is enough: from whatever a group has come to, any running majority of it can
    elect one of its members, bring all its members in line, commit and deliver, while nobody
    else does anything. How long that takes is up to timers, which are not modelled. */
module RaftProgress {
  import opened RaftTypes
  import opened RaftSpec
  import opened RaftCluster
  import opened RaftInvariant
  import opened RaftFrames
  import opened RaftNodeSteps
  import opened RaftReplicationSteps
  import opened RaftElections
  import opened RaftRepair
  import opened Ways

  /** A majority of a group that has more than one member, all running. */
  ghost predicate Team(nodes: Nodes, q: set<NodeId>) {
    Majority(q, nodes.Keys) && |nodes| > 1 && forall m | m in q :: nodes[m].running
  }

  /** Only members of `q` moved, and they still run. */
  ghost predicate Within(nodes: Nodes, nodes': Nodes, q: set<NodeId>) {
    && nodes'.Keys == nodes.Keys
    && (forall m | m in nodes && m !in q :: nodes'[m] == nodes[m])
    && (forall m | m in nodes && m in q :: nodes'[m].running == nodes[m].running)
  }

  ghost predicate GoesWithin(c: Cluster, c': Cluster, q: set<NodeId>) {
    GoesTo(c, c') && Within(c.nodes, c'.nodes, q)
  }

  lemma WithinTrans(c: Cluster, c1: Cluster, c': Cluster, q: set<NodeId>)
    requires GoesWithin(c, c1, q) && GoesWithin(c1, c', q)
    ensures GoesWithin(c, c', q)
  {
    Trans(Next, c, c1, c');
  }

  lemma TeamStays(nodes: Nodes, nodes': Nodes, q: set<NodeId>)
    requires Team(nodes, q) && Within(nodes, nodes', q)
    ensures Team(nodes', q)
  {
    assert |nodes'| == |nodes'.Keys| == |nodes.Keys| == |nodes|;
  }

  // ---------- becoming a candidate ----------

  /** One of `q` has a log that is up to date with all of them. */
  lemma BestLog(nodes: Nodes, q: set<NodeId>) returns (n: NodeId)
    requires q != {} && q <= nodes.Keys && forall m | m in q :: |nodes[m].log| > 0
    ensures n in q
    ensures forall p | p in q :: UpToDate(Last(nodes[n].log).term, Last(nodes[n].log).index, nodes[p].log)
  {
    var p :| p in q;
    n := p;
    if q != {p} {
      var m := BestLog(nodes, q - {p});
      if !UpToDate(Last(nodes[p].log).term, Last(nodes[p].log).index, nodes[m].log) {
        n := m;
      }
    }
  }

  lemma NewestTerm(nodes: Nodes, q: set<NodeId>) returns (t: nat)
    requires q <= nodes.Keys
    ensures forall m | m in q :: nodes[m].currentTerm <= t
  {
    t := 0;
    if q != {} {
      var p :| p in q;
      t := NewestTerm(nodes, q - {p});
      if nodes[p].currentTerm > t {
        t := nodes[p].currentTerm;
      }
    }
  }

  /** A leader that asks a member of a later term steps down. */
  lemma StepsDown(c: Cluster, n: NodeId, p: NodeId) returns (c': Cluster)
    requires Sound(c) && Steady(c, n) && p in c.nodes && p != n && c.nodes[p].currentTerm > c.nodes[n].currentTerm
    ensures GoesTo(c, c') && c'.nodes == c.nodes[n := BecomeFollower(c.nodes[n], c.nodes[p].currentTerm)]
  {
    assert NodeSound(c.nodes.Keys, n, c.nodes[n]);
    assert p in c.nodes[n].peers && CanReplicate(c.nodes[n], p);
    var reply := AppendEntriesReply(c.nodes[p].currentTerm, false);
    c' := Round(c, n, p, c.nodes[p], reply, BecomeFollower(c.nodes[n], c.nodes[p].currentTerm));
    assert c.nodes[p := c.nodes[p]] == c.nodes;
  }

  /** Candidate `n` has open calls to all of `todo`, who are of earlier terms and not ahead of its log. */
  ghost predicate Campaigning(c: Cluster, n: NodeId, todo: set<NodeId>) {
    && n in c.nodes && c.nodes[n].role == Candidate && c.nodes[n].running && |c.nodes[n].log| > 0
    && forall p | p in todo :: Asked(c, n, p)
  }

  ghost predicate Asked(c: Cluster, n: NodeId, p: NodeId)
    requires n in c.nodes && |c.nodes[n].log| > 0
  {
    var s, call := c.nodes[n], VoteCall(n, p, VoteRequest(c.nodes[n]));
    && p != n && p in c.nodes && c.nodes[p].currentTerm < s.currentTerm && |c.nodes[p].log| > 0
    && UpToDate(Last(s.log).term, Last(s.log).index, c.nodes[p].log)
    && call in c.voteCalls && call in c.openVotes
  }

  lemma Timeout(c: Cluster, n: NodeId) returns (c': Cluster)
    requires Sound(c) && n in c.nodes && c.nodes[n].running && c.nodes[n].role != Leader
    ensures GoesTo(c, c') && c'.nodes == c.nodes[n := StartElection(c.nodes[n])]
    ensures |c'.nodes[n].log| > 0
    ensures forall p | p in c.nodes && p != n ::
              VoteCall(n, p, VoteRequest(c'.nodes[n])) in c'.voteCalls && VoteCall(n, p, VoteRequest(c'.nodes[n])) in c'.openVotes
  {
    assert NodeSound(c.nodes.Keys, n, c.nodes[n]);
    c' := After(c, ElectionTimeout(n));
    StepGoes(c, ElectionTimeout(n));
    forall p | p in c.nodes && p != n ensures VoteCall(n, p, VoteRequest(c'.nodes[n])) in VoteCalls(c'.nodes[n]) {
      assert p in c'.nodes[n].peers;
    }
  }

  /** The last timeout, in the newest term. */
  lemma LastTimeout(c: Cluster, n: NodeId, todo: set<NodeId>) returns (c': Cluster)
    requires Sound(c) && n in c.nodes && c.nodes[n].running && c.nodes[n].role != Leader && todo <= c.nodes.Keys - {n}
    requires forall p | p in todo :: Behind(c.nodes, n, p) && c.nodes[p].currentTerm <= c.nodes[n].currentTerm
    ensures GoesTo(c, c') && Campaigning(c', n, todo) && c'.nodes == c.nodes[n := StartElection(c.nodes[n])]
  {
    c' := Timeout(c, n);
    forall p | p in todo ensures Asked(c', n, p) {
      assert Behind(c.nodes, n, p);
    }
  }

  /** The log of `p` is not ahead of that of `n`. */
  ghost predicate Behind(nodes: Nodes, n: NodeId, p: NodeId) {
    && n in nodes && p in nodes && |nodes[n].log| > 0 && |nodes[p].log| > 0
    && UpToDate(Last(nodes[n].log).term, Last(nodes[n].log).index, nodes[p].log)
  }

  /** Nobody but `n` moved, which stands for election with the log it had. */
  ghost predicate Stands(nodes: Nodes, nodes': Nodes, n: NodeId) {
    && n in nodes && nodes'.Keys == nodes.Keys && (forall m | m in nodes && m != n :: nodes'[m] == nodes[m])
    && nodes'[n].log == nodes[n].log && nodes'[n].peers == nodes[n].peers && nodes'[n].votes == 1
  }

  /** By timing out again and again `n` comes to a term that is newer than `t`. */
  lemma {:induction false} Campaigns(c: Cluster, n: NodeId, todo: set<NodeId>, t: nat) returns (c': Cluster)
    requires Reached(c) && n in c.nodes && c.nodes[n].running && c.nodes[n].role != Leader
    requires c.nodes[n].currentTerm <= t && todo <= c.nodes.Keys - {n}
    requires forall p | p in todo :: Behind(c.nodes, n, p) && c.nodes[p].currentTerm <= t
    ensures GoesTo(c, c') && Campaigning(c', n, todo)
    ensures Stands(c.nodes, c'.nodes, n)
    decreases t - c.nodes[n].currentTerm
  {
    ReachedIsSound(c);
    if c.nodes[n].currentTerm == t {
      c' := LastTimeout(c, n, todo);
    } else {
      var c1 := EarlyTimeout(c, n, todo);
      c' := Campaigns(c1, n, todo, t);
      StandsTrans(c.nodes, c1.nodes, c'.nodes, n);
      Trans(Next, c, c1, c');
    }
  }

  lemma EarlyTimeout(c: Cluster, n: NodeId, todo: set<NodeId>) returns (c': Cluster)
    requires Reached(c) && Sound(c) && n in c.nodes && c.nodes[n].running && c.nodes[n].role != Leader && n !in todo
    requires forall p | p in todo :: Behind(c.nodes, n, p)
    ensures GoesTo(c, c') && Reached(c') && c'.nodes == c.nodes[n := StartElection(c.nodes[n])]
    ensures forall p | p in todo :: Behind(c'.nodes, n, p)
  {
    c' := Timeout(c, n);
    GoesReached(c, c');
    StillBehind(c.nodes, c'.nodes, n, todo);
  }

  lemma StandsTrans(nodes: Nodes, nodes1: Nodes, nodes': Nodes, n: NodeId)
    requires n in nodes && nodes1 == nodes[n := StartElection(nodes[n])] && Stands(nodes1, nodes', n)
    ensures Stands(nodes, nodes', n)
  {}

  lemma StillBehind(nodes: Nodes, nodes': Nodes, n: NodeId, todo: set<NodeId>)
    requires n in nodes && nodes' == nodes[n := StartElection(nodes[n])] && n !in todo
    requires forall p | p in todo :: Behind(nodes, n, p)
    ensures forall p | p in todo :: Behind(nodes', n, p)
  {
    forall p | p in todo ensures Behind(nodes', n, p) {
      assert Behind(nodes, n, p);
    }
  }

  // ---------- winning ----------

  lemma Grants'(s: NodeState, args: RequestVoteArgs) returns (s': NodeState)
    requires |s.log| > 0 && s.currentTerm < args.term && UpToDate(args.lastLogTerm, args.lastLogIndex, s.log)
    ensures HandleRequestVote(s, args) == (s', RequestVoteReply(args.term, true))
    ensures s'.log == s.log && s'.running == s.running && s'.currentTerm == args.term
  {
    s' := HandleRequestVote(s, args).0;
  }

  /** `p` is asked, grants its vote, and the vote is counted. */
  lemma OneVote(c: Cluster, n: NodeId, p: NodeId) returns (c': Cluster)
    requires Sound(c) && Campaigning(c, n, {p})
    ensures GoesTo(c, c') && c'.nodes.Keys == c.nodes.Keys && p in c.nodes && p != n
    ensures forall m | m in c.nodes && m != n && m != p :: c'.nodes[m] == c.nodes[m]
    ensures var s := c.nodes[n]; c'.nodes[n] == ReceiveVoteReply(s, s.currentTerm, RequestVoteReply(s.currentTerm, true))
    ensures var v, v' := c.nodes[p], c'.nodes[p];
            v'.log == v.log && v'.running == v.running && v'.currentTerm == c.nodes[n].currentTerm
    ensures c'.voteCalls == c.voteCalls && forall call | call in c.openVotes && call.dst != p :: call in c'.openVotes
  {
    assert Asked(c, n, p);
    assert NodeSound(c.nodes.Keys, n, c.nodes[n]);
    assert NodeSound(c.nodes.Keys, p, c.nodes[p]);
    var call, reply := VoteCall(n, p, VoteRequest(c.nodes[n])), RequestVoteReply(c.nodes[n].currentTerm, true);
    var voter := Grants'(c.nodes[p], call.args);
    var c1 := After(c, ServeVote(call));
    StepGoes(c, ServeVote(call));
    c' := After(c1, GetVoteReply(call, reply));
    StepGoes(c1, GetVoteReply(call, reply));
    Trans(Next, c, c1, c');
  }

  /** `n` has won with the log it stood for. */
  ghost predicate Won(nodes: Nodes, nodes': Nodes, n: NodeId, q: set<NodeId>) {
    && n in nodes && n in nodes' && q <= nodes.Keys && q <= nodes'.Keys
    && nodes'[n].role == Leader && nodes[n].log <= nodes'[n].log && nodes'[n].currentTerm == nodes[n].currentTerm
    && forall p | p in q :: nodes'[p].currentTerm <= nodes'[n].currentTerm
  }

  lemma CountedOne(s: NodeState) returns (s': NodeState)
    requires s.role == Candidate && |s.log| > 0
    ensures s' == ReceiveVoteReply(s, s.currentTerm, RequestVoteReply(s.currentTerm, true))
    ensures s'.currentTerm == s.currentTerm && s'.running == s.running && s'.id == s.id && s'.peers == s.peers
    ensures if s.votes + 1 >= MajoritySize(s.peers) then s'.role == Leader && s.log <= s'.log
            else s'.role == Candidate && s'.votes == s.votes + 1 && s'.log == s.log
  {
    s' := ReceiveVoteReply(s, s.currentTerm, RequestVoteReply(s.currentTerm, true));
  }

  lemma StillAsked(c: Cluster, c': Cluster, n: NodeId, p: NodeId, m: NodeId)
    requires n in c.nodes && n in c'.nodes && |c.nodes[n].log| > 0 && Asked(c, n, m) && m != p
    requires c'.nodes[n].log == c.nodes[n].log && c'.nodes[n].currentTerm == c.nodes[n].currentTerm && c'.nodes[n].id == c.nodes[n].id
    requires m in c'.nodes && c'.nodes[m] == c.nodes[m] && c'.voteCalls == c.voteCalls
    requires forall call | call in c.openVotes && call.dst != p :: call in c'.openVotes
    ensures Asked(c', n, m)
  {}

  /** With the votes of `todo` the candidate will have a majority. */
  ghost predicate Race(c: Cluster, q: set<NodeId>, n: NodeId, todo: set<NodeId>) {
    && n in q && q <= c.nodes.Keys && todo <= q && Campaigning(c, n, todo) && c.nodes[n].peers != []
    && c.nodes[n].votes + |todo| >= MajoritySize(c.nodes[n].peers)
    && forall p | p in q :: c.nodes[p].currentTerm <= c.nodes[n].currentTerm
  }

  lemma OneVoteLess(c: Cluster, c': Cluster, q: set<NodeId>, n: NodeId, todo: set<NodeId>, p: NodeId)
    requires Race(c, q, n, todo) && p in todo && p != n && c'.nodes.Keys == c.nodes.Keys
    requires forall m | m in c.nodes && m != n && m != p :: c'.nodes[m] == c.nodes[m]
    requires c'.nodes[p].currentTerm == c.nodes[n].currentTerm
    requires var s, s' := c.nodes[n], c'.nodes[n];
             && s'.role == Candidate && s'.votes == s.votes + 1 && s'.log == s.log && s'.currentTerm == s.currentTerm
             && s'.id == s.id && s'.running == s.running && s'.peers == s.peers
    requires c'.voteCalls == c.voteCalls && forall call | call in c.openVotes && call.dst != p :: call in c'.openVotes
    ensures Race(c', q, n, todo - {p})
  {
    forall m | m in todo - {p} ensures Asked(c', n, m) {
      StillAsked(c, c', n, p, m);
    }
  }

  /** One more vote wins, or leaves one less to ask. */
  lemma VoteOn(c: Cluster, q: set<NodeId>, n: NodeId, todo: set<NodeId>, p: NodeId) returns (c': Cluster)
    requires Sound(c) && Race(c, q, n, todo) && p in todo
    ensures GoesWithin(c, c', q) && n in c.nodes && n in c'.nodes
    ensures Won(c.nodes, c'.nodes, n, q)
            || (Race(c', q, n, todo - {p}) && c'.nodes[n].log == c.nodes[n].log && c'.nodes[n].currentTerm == c.nodes[n].currentTerm)
  {
    c' := OneVote(c, n, p);
    var s' := CountedOne(c.nodes[n]);
    if s'.role == Leader {
      WonWith(c.nodes, c'.nodes, q, n, p);
    } else {
      OneVoteLess(c, c', q, n, todo, p);
    }
  }

  lemma WonWith(nodes: Nodes, nodes': Nodes, q: set<NodeId>, n: NodeId, p: NodeId)
    requires n in q && p in q && q <= nodes.Keys && nodes'.Keys == nodes.Keys
    requires forall m | m in nodes && m != n && m != p :: nodes'[m] == nodes[m]
    requires forall m | m in q :: nodes[m].currentTerm <= nodes[n].currentTerm
    requires nodes'[n].role == Leader && nodes[n].log <= nodes'[n].log && nodes'[n].currentTerm == nodes[n].currentTerm
    requires nodes'[p].currentTerm == nodes[n].currentTerm
    ensures Won(nodes, nodes', n, q)
  {}

  lemma SomeoneLeft(c: Cluster, q: set<NodeId>, n: NodeId, todo: set<NodeId>)
    requires Sound(c) && Race(c, q, n, todo)
    ensures todo != {}
  {
    assert NodeSound(c.nodes.Keys, n, c.nodes[n]);
  }

  /** Vote by vote, until a majority is counted. */
  lemma {:induction false} Wins(c: Cluster, q: set<NodeId>, n: NodeId, todo: set<NodeId>) returns (c': Cluster)
    requires Reached(c) && Race(c, q, n, todo)
    ensures GoesWithin(c, c', q) && Won(c.nodes, c'.nodes, n, q)
    decreases todo
  {
    ReachedIsSound(c);
    SomeoneLeft(c, q, n, todo);
    var p :| p in todo;
    c' := VoteOn(c, q, n, todo, p);
    if !Won(c.nodes, c'.nodes, n, q) {
      var c1 := c';
      GoesReached(c, c1);
      c' := Wins(c1, q, n, todo - {p});
      WithinTrans(c, c1, c', q);
    }
  }

  /** Member `n` of `q` leads, and none of `q` is of a later term. */
  ghost predicate Leads(nodes: Nodes, q: set<NodeId>, n: NodeId) {
    && Team(nodes, q) && n in q && nodes[n].role == Leader
    && forall p | p in q :: nodes[p].currentTerm <= nodes[n].currentTerm
  }

  lemma EnoughVotes(nodes: Nodes, q: set<NodeId>, n: NodeId)
    requires Team(nodes, q) && n in q && PeersOf(nodes.Keys, n, nodes[n].peers)
    ensures 1 + |q - {n}| >= MajoritySize(nodes[n].peers) && nodes[n].peers != []
  {
    GroupSize(nodes.Keys, n, nodes[n].peers);
    assert |nodes.Keys| == |nodes| && |q - {n}| == |q| - 1;
  }

  /** A candidate of the best log, no longer leader. */
  lemma Stand(c: Cluster, q: set<NodeId>, n: NodeId, t: nat) returns (c': Cluster)
    requires Reached(c) && Team(c.nodes, q) && n in q && c.nodes[n].role != Leader
    requires forall p | p in q :: Behind(c.nodes, n, p) && c.nodes[p].currentTerm <= t
    ensures GoesWithin(c, c', q) && Reached(c') && Race(c', q, n, q - {n})
  {
    c' := Campaigns(c, n, q - {n}, t);
    GoesReached(c, c');
    ReachedIsSound(c');
    Standing(c.nodes, c', q, n);
  }

  lemma Standing(nodes: Nodes, c: Cluster, q: set<NodeId>, n: NodeId)
    requires Team(nodes, q) && n in q && Stands(nodes, c.nodes, n) && nodes[n].running && Campaigning(c, n, q - {n}) && Sound(c)
    ensures Within(nodes, c.nodes, q) && Race(c, q, n, q - {n})
  {
    assert NodeSound(c.nodes.Keys, n, c.nodes[n]);
    TeamStays(nodes, c.nodes, q);
    IsRace(c, q, n);
  }

  lemma IsRace(c: Cluster, q: set<NodeId>, n: NodeId)
    requires Team(c.nodes, q) && n in q && Campaigning(c, n, q - {n}) && c.nodes[n].votes == 1
    requires PeersOf(c.nodes.Keys, n, c.nodes[n].peers)
    ensures Race(c, q, n, q - {n})
  {
    EnoughVotes(c.nodes, q, n);
    forall p | p in q ensures c.nodes[p].currentTerm <= c.nodes[n].currentTerm {
      assert p != n ==> Asked(c, n, p);
    }
  }

  /** Whoever leads an older term finds out about the newer one. */
  lemma Resigns(c: Cluster, q: set<NodeId>, n: NodeId) returns (c': Cluster)
    requires Reached(c) && Team(c.nodes, q) && n in q && !Leads(c.nodes, q, n)
    requires forall p | p in q :: Behind(c.nodes, n, p)
    ensures GoesWithin(c, c', q) && Reached(c') && c'.nodes[n].role != Leader
    ensures forall p | p in q :: Behind(c'.nodes, n, p)
  {
    if c.nodes[n].role != Leader {
      Stays(Next, c);
      c' := c;
    } else {
      ReachedIsSound(c);
      var p :| p in q && c.nodes[p].currentTerm > c.nodes[n].currentTerm;
      c' := StepsDown(c, n, p);
      GoesReached(c, c');
      ResignedBehind(c.nodes, c'.nodes, q, n, c.nodes[p].currentTerm);
    }
  }

  lemma ResignedBehind(nodes: Nodes, nodes': Nodes, q: set<NodeId>, n: NodeId, t: nat)
    requires n in q && q <= nodes.Keys && nodes' == nodes[n := BecomeFollower(nodes[n], t)]
    requires forall p | p in q :: Behind(nodes, n, p)
    ensures Within(nodes, nodes', q) && nodes'[n].role != Leader
    ensures forall p | p in q :: Behind(nodes', n, p)
  {
    forall p | p in q ensures Behind(nodes', n, p) {
      assert Behind(nodes, n, p);
    }
  }

  lemma LogsOf(c: Cluster, q: set<NodeId>)
    requires Sound(c) && q <= c.nodes.Keys
    ensures forall m | m in q :: |c.nodes[m].log| > 0
  {
    forall m | m in q ensures |c.nodes[m].log| > 0 {
      assert NodeSound(c.nodes.Keys, m, c.nodes[m]);
    }
  }

  /** Any running majority can come to have a leader among them. */
  lemma Elect(c: Cluster, q: set<NodeId>) returns (c': Cluster, n: NodeId)
    requires Reached(c) && Team(c.nodes, q)
    ensures GoesWithin(c, c', q) && Reached(c') && Leads(c'.nodes, q, n)
  {
    ReachedIsSound(c);
    LogsOf(c, q);
    n := BestLog(c.nodes, q);
    if Leads(c.nodes, q, n) {
      Stays(Next, c);
      c' := c;
    } else {
      var c1 := Resigns(c, q, n);
      TeamStays(c.nodes, c1.nodes, q);
      var t := NewestTerm(c1.nodes, q);
      var c2 := Stand(c1, q, n, t);
      WithinTrans(c, c1, c2, q);
      c' := Wins(c2, q, n, q - {n});
      WithinTrans(c, c2, c', q);
      TeamStays(c.nodes, c'.nodes, q);
      GoesReached(c, c');
    }
  }

  // ---------- bringing everybody in line ----------

  /** Peer `p` has the leader's log, and has committed it up to `k`. */
  ghost predicate HasIt(nodes: Nodes, n: NodeId, p: NodeId, k: nat) {
    && n in nodes && p in nodes && Agree(nodes[n].log, nodes[p].log, |nodes[n].log|)
    && p in nodes[n].matchIndex && nodes[n].matchIndex[p] == |nodes[n].log| - 1
    && nodes[p].currentTerm == nodes[n].currentTerm && nodes[p].commitIndex >= k
  }

  /** The leader `n` has gone on leading. */
  ghost predicate LedOn(nodes: Nodes, nodes': Nodes, q: set<NodeId>, n: NodeId) {
    && Leads(nodes, q, n) && Leads(nodes', q, n) && nodes'[n].log == nodes[n].log
    && nodes'[n].currentTerm == nodes[n].currentTerm && nodes'[n].commitIndex >= nodes[n].commitIndex
  }

  /** One repair, seen from all of `q`. */
  lemma AlignedLeads(nodes: Nodes, nodes': Nodes, q: set<NodeId>, n: NodeId, p: NodeId)
    requires Leads(nodes, q, n) && p in q && Aligned(nodes, nodes', n, p)
    ensures Within(nodes, nodes', q) && LedOn(nodes, nodes', q, n)
  {
    TeamStays(nodes, nodes', q);
  }

  lemma AlignedHas(nodes: Nodes, nodes': Nodes, n: NodeId, p: NodeId, m: NodeId, k: nat)
    requires Aligned(nodes, nodes', n, p) && k <= nodes[n].commitIndex < |nodes[n].log|
    requires m == p || (m != n && HasIt(nodes, n, m, k))
    ensures HasIt(nodes', n, m, k)
  {}

  lemma OneMoreHas(nodes: Nodes, nodes': Nodes, n: NodeId, p: NodeId, done: set<NodeId>, k: nat)
    requires Aligned(nodes, nodes', n, p) && k <= nodes[n].commitIndex < |nodes[n].log| && n !in done
    requires forall m | m in done :: HasIt(nodes, n, m, k)
    ensures forall m | m in done + {p} :: HasIt(nodes', n, m, k)
  {
    forall m | m in done + {p} ensures HasIt(nodes', n, m, k) {
      AlignedHas(nodes, nodes', n, p, m, k);
    }
  }

  lemma RepairInTeam(c: Cluster, q: set<NodeId>, n: NodeId, p: NodeId) returns (c': Cluster)
    requires Reached(c) && Leads(c.nodes, q, n) && p in q && p != n
    ensures GoesWithin(c, c', q) && Reached(c') && Aligned(c.nodes, c'.nodes, n, p) && LedOn(c.nodes, c'.nodes, q, n)
    ensures c.nodes[n].commitIndex < |c.nodes[n].log|
  {
    ReachedIsSound(c);
    assert NodeSound(c.nodes.Keys, n, c.nodes[n]);
    c' := Repair(c, n, p);
    AlignedLeads(c.nodes, c'.nodes, q, n, p);
  }

  /** The leader, which has committed up to `k`, has everybody in `done` in line. */
  ghost predicate Aligning(nodes: Nodes, q: set<NodeId>, n: NodeId, done: set<NodeId>, k: nat) {
    && Leads(nodes, q, n) && k <= nodes[n].commitIndex && n !in done
    && (forall m | m in done :: HasIt(nodes, n, m, k))
    && (done != {} ==> AtFront(nodes[n]))
  }

  lemma AlignOne(c: Cluster, q: set<NodeId>, n: NodeId, done: set<NodeId>, p: NodeId, k: nat) returns (c': Cluster)
    requires Reached(c) && Aligning(c.nodes, q, n, done, k) && p in q && p != n
    ensures GoesWithin(c, c', q) && Reached(c') && LedOn(c.nodes, c'.nodes, q, n) && Aligning(c'.nodes, q, n, done + {p}, k)
  {
    c' := RepairInTeam(c, q, n, p);
    OneMoreAligned(c.nodes, c'.nodes, q, n, done, p, k);
  }

  lemma OneMoreAligned(nodes: Nodes, nodes': Nodes, q: set<NodeId>, n: NodeId, done: set<NodeId>, p: NodeId, k: nat)
    requires Aligning(nodes, q, n, done, k) && Aligned(nodes, nodes', n, p) && LedOn(nodes, nodes', q, n)
    requires nodes[n].commitIndex < |nodes[n].log|
    ensures Aligning(nodes', q, n, done + {p}, k)
  {
    OneMoreHas(nodes, nodes', n, p, done, k);
  }

  /** Everybody in `todo` comes in line too. */
  lemma {:induction false} AlignAll(c: Cluster, q: set<NodeId>, n: NodeId, done: set<NodeId>, todo: set<NodeId>, k: nat)
    returns (c': Cluster, all: set<NodeId>)
    requires Reached(c) && Aligning(c.nodes, q, n, done, k) && todo <= q - {n}
    ensures GoesWithin(c, c', q) && Reached(c') && LedOn(c.nodes, c'.nodes, q, n)
    ensures done <= all && todo <= all && Aligning(c'.nodes, q, n, all, k)
    decreases todo
  {
    if todo == {} {
      Stays(Next, c);
      c', all := c, done;
    } else {
      var p :| p in todo;
      var c1 := AlignOne(c, q, n, done, p, k);
      c', all := AlignAll(c1, q, n, done + {p}, todo - {p}, k);
      WithinTrans(c, c1, c', q);
    }
  }

  /** A leader that a majority is in line with can commit all of its log. */
  lemma AllCommittable(ids: set<NodeId>, s: NodeState, q: set<NodeId>)
    requires Majority(q, ids) && s.id in q && PeersOf(ids, s.id, s.peers)
    requires |s.log| > 0 && Last(s.log).term == s.currentTerm
    requires forall m | m in q && m != s.id :: m in s.matchIndex && s.matchIndex[m] == |s.log| - 1
    ensures Committable(s, |s.log| - 1)
  {
    CountIsSize(s.peers, s.matchIndex, |s.log| - 1);
    var holders := set p | p in s.peers && p in s.matchIndex && s.matchIndex[p] >= |s.log| - 1;
    assert q - {s.id} <= holders;
    SubsetSize(q - {s.id}, holders);
    GroupSize(ids, s.id, s.peers);
  }

  lemma CommitsAll(c: Cluster, q: set<NodeId>, n: NodeId)
    requires Sound(c) && Leads(c.nodes, q, n) && AtFront(c.nodes[n])
    requires forall m | m in q - {n} :: HasIt(c.nodes, n, m, 0)
    ensures c.nodes[n].commitIndex == |c.nodes[n].log| - 1
  {
    assert NodeSound(c.nodes.Keys, n, c.nodes[n]);
    forall m | m in q && m != n ensures m in c.nodes[n].matchIndex && c.nodes[n].matchIndex[m] == |c.nodes[n].log| - 1 {
      assert HasIt(c.nodes, n, m, 0);
    }
    AllCommittable(c.nodes.Keys, c.nodes[n], q);
  }

  /** All of `q` have the leader's log and know that all of it is committed. */
  ghost predicate AllCommitted(nodes: Nodes, q: set<NodeId>, n: NodeId) {
    && Leads(nodes, q, n) && |nodes[n].log| > 0 && nodes[n].commitIndex == |nodes[n].log| - 1
    && forall m | m in q - {n} :: HasIt(nodes, n, m, |nodes[n].log| - 1)
  }

  lemma SomeoneElse(nodes: Nodes, q: set<NodeId>, n: NodeId)
    requires Team(nodes, q) && n in q
    ensures q - {n} != {}
  {
    assert |nodes| == |nodes.Keys| && |q - {n}| == |q| - 1;
  }

  /** Once to give everybody the log, which commits it, and once to tell them. */
  lemma Commit(c: Cluster, q: set<NodeId>, n: NodeId) returns (c': Cluster)
    requires Reached(c) && Leads(c.nodes, q, n)
    ensures GoesWithin(c, c', q) && Reached(c') && AllCommitted(c'.nodes, q, n) && LedOn(c.nodes, c'.nodes, q, n)
  {
    SomeoneElse(c.nodes, q, n);
    var c1, all := AlignAll(c, q, n, {}, q - {n}, 0);
    ReachedIsSound(c1);
    CommitsAll(c1, q, n);
    var again;
    c', again := AlignAll(c1, q, n, {}, q - {n}, |c1.nodes[n].log| - 1);
    ReachedIsSound(c');
    assert NodeSound(c'.nodes.Keys, n, c'.nodes[n]);
    WithinTrans(c, c1, c', q);
  }

  // ---------- delivering ----------

  /** The members of `todo` have delivered what they knew to be committed, and nothing else happened. */
  ghost predicate Delivered(nodes: Nodes, nodes': Nodes, todo: set<NodeId>) {
    && nodes'.Keys == nodes.Keys
    && (forall m | m in nodes && m !in todo :: nodes'[m] == nodes[m])
    && (forall m | m in nodes && m in todo :: DeliveredOne(nodes[m], nodes'[m]))
  }

  predicate DeliveredOne(s: NodeState, s': NodeState) {
    && s'.log == s.log && s'.role == s.role && s'.currentTerm == s.currentTerm && s'.running == s.running
    && s'.commitIndex == s.commitIndex && s'.lastApplied == s.commitIndex
  }

  lemma DeliverOne(c: Cluster, m: NodeId) returns (c': Cluster)
    requires Sound(c) && m in c.nodes && c.nodes[m].running
    ensures GoesTo(c, c') && Delivered(c.nodes, c'.nodes, {m})
  {
    assert NodeSound(c.nodes.Keys, m, c.nodes[m]);
    if c.nodes[m].lastApplied < c.nodes[m].commitIndex {
      c' := After(c, ApplyCommitted(m));
      StepGoes(c, ApplyCommitted(m));
    } else {
      Stays(Next, c);
      c' := c;
    }
  }

  lemma {:induction false} DeliverAll(c: Cluster, todo: set<NodeId>) returns (c': Cluster)
    requires Reached(c) && todo <= c.nodes.Keys && forall m | m in todo :: c.nodes[m].running
    ensures GoesTo(c, c') && Reached(c') && Delivered(c.nodes, c'.nodes, todo)
    decreases todo
  {
    if todo == {} {
      Stays(Next, c);
      c' := c;
    } else {
      ReachedIsSound(c);
      var m :| m in todo;
      var c1 := DeliverOne(c, m);
      GoesReached(c, c1);
      c' := DeliverAll(c1, todo - {m});
      Trans(Next, c, c1, c');
      DeliveredTrans(c.nodes, c1.nodes, c'.nodes, m, todo);
    }
  }

  lemma DeliveredTrans(nodes: Nodes, nodes1: Nodes, nodes': Nodes, m: NodeId, todo: set<NodeId>)
    requires Delivered(nodes, nodes1, {m}) && Delivered(nodes1, nodes', todo - {m}) && m in todo
    ensures Delivered(nodes, nodes', todo)
  {
    forall p | p in nodes && p in todo ensures DeliveredOne(nodes[p], nodes'[p]) {
      assert p in nodes1;
    }
  }

  lemma DeliveredWithin(nodes: Nodes, nodes': Nodes, q: set<NodeId>)
    requires Delivered(nodes, nodes', q)
    ensures Within(nodes, nodes', q)
  {}

  /** Member `m` has delivered the whole of the leader's log. */
  ghost predicate HasDelivered(leader: NodeState, s: NodeState) {
    |leader.log| > 0 && leader.log[1..] <= s.applied && s.currentTerm == leader.currentTerm
  }

  lemma AppliesPrefix(log: Log, s: NodeState)
    requires |log| > 0 && Agree(log, s.log, |log|) && |log| - 1 <= s.lastApplied < |s.log| && s.applied == s.log[1..s.lastApplied + 1]
    ensures log[1..] <= s.applied
  {
    assert forall i | 0 <= i < |log| - 1 :: log[1..][i] == s.applied[i];
  }

  lemma MemberDelivered(nodes: Nodes, nodes': Nodes, ids: set<NodeId>, q: set<NodeId>, n: NodeId, m: NodeId)
    requires AllCommitted(nodes, q, n) && Delivered(nodes, nodes', q) && m in q && NodeSound(ids, m, nodes'[m])
    ensures HasDelivered(nodes'[n], nodes'[m])
  {
    assert m != n ==> m in q - {n};
    AppliesPrefix(nodes'[n].log, nodes'[m]);
  }

  /** From whatever a group has come to, any running majority can go on by itself to a leader
      among them whose whole log, with an entry of its own term, all of them have delivered. */
  lemma MajoritySuffices(c: Cluster, q: set<NodeId>) returns (c': Cluster, n: NodeId)
    requires Reached(c) && Team(c.nodes, q)
    ensures GoesWithin(c, c', q) && n in q && n in c'.nodes && c'.nodes[n].role == Leader
    ensures |c'.nodes[n].log| > 0 && Last(c'.nodes[n].log).term == c'.nodes[n].currentTerm
    ensures forall m | m in q :: HasDelivered(c'.nodes[n], c'.nodes[m])
  {
    var c1;
    c1, n := Elect(c, q);
    var c2 := Commit(c1, q, n);
    WithinTrans(c, c1, c2, q);
    c' := DeliverAll(c2, q);
    DeliveredWithin(c2.nodes, c'.nodes, q);
    WithinTrans(c, c2, c', q);
    AllDelivered(c2.nodes, c', q, n);
  }

  lemma AllDelivered(nodes: Nodes, c: Cluster, q: set<NodeId>, n: NodeId)
    requires AllCommitted(nodes, q, n) && Delivered(nodes, c.nodes, q) && Reached(c)
    ensures n in c.nodes && c.nodes[n].role == Leader
    ensures |c.nodes[n].log| > 0 && Last(c.nodes[n].log).term == c.nodes[n].currentTerm
    ensures forall m | m in q :: m in c.nodes && HasDelivered(c.nodes[n], c.nodes[m])
  {
    ReachedIsSound(c);
    forall m | m in q ensures m in c.nodes && HasDelivered(c.nodes[n], c.nodes[m]) {
      assert NodeSound(c.nodes.Keys, m, c.nodes[m]);
      MemberDelivered(nodes, c.nodes, c.nodes.Keys, q, n, m);
    }
    assert NodeSound(c.nodes.Keys, n, c.nodes[n]);
  }
}
