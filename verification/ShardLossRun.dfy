/** The run behind `ShardLoss`: an accepted agent is erased by a later committed snapshot.
    Node `a` leads and proposes agent x; the entry reaches `b`, the answer does not.
    `b` is elected, commits x, accepts agent y for good, and `a` applies both. Only
    now does the `add_agent` that still waits at `a` notice that `a` was deposed, and
    puts back the registry from before x. Elected again, `a` finds itself caught up
    and proposes what it holds. */
module ShardLossRun {
  import opened World
  import opened RaftTypes
  import opened RaftSpec
  import opened RaftCluster
  import opened ShardSpec
  import opened ShardGroup
  import opened ShardLoss

  const MX: Agents := map[X.id := X]
  const MXY: Agents := map[X.id := X][Y.id := Y]

  const N1: Entry := Entry(1, 1, NoOp)
  const PX: Entry := Entry(1, 2, Snapshot(MX))
  const N2: Entry := Entry(2, 3, NoOp)
  const PXY: Entry := Entry(2, 4, Snapshot(MXY))
  const N3: Entry := Entry(3, 5, NoOp)
  const LOSS: Entry := Entry(3, 6, Snapshot(map[]))

  const HOLDS_X: Local := Local(MX, Adding(X, map[], 2, 1), false)
  const HAS_X: Local := Local(MX, Free, false)
  const HOLDS_Y: Local := Local(MXY, Adding(Y, MX, 4, 2), false)
  const HAS_Y: Local := Local(MXY, Free, false)
  const LATE: Local := Local(MXY, Adding(X, map[], 2, 1), false)
  const YES: set<Acceptance> := {Acceptance(B, Y, 4, 2)}

  function Both(a: NodeState, b: NodeState): map<NodeId, NodeState> {
    map[A := a, B := b]
  }

  function Replicas(a: Local, b: Local): map<NodeId, Local> {
    map[A := a, B := b]
  }

  const A0: NodeState :=
    NodeState(A, [B], 0, NOBODY, [SENTINEL], Follower, NOBODY, 0, 0, map[], map[], 0, false, [], true)
  const B0: NodeState :=
    NodeState(B, [A], 0, NOBODY, [SENTINEL], Follower, NOBODY, 0, 0, map[], map[], 0, false, [], true)
  const A0C: NodeState :=
    NodeState(A, [B], 1, A, [SENTINEL], Candidate, NOBODY, 0, 0, map[], map[], 1, false, [], true)
  const B1: NodeState :=
    NodeState(B, [A], 1, A, [SENTINEL], Follower, NOBODY, 0, 0, map[], map[], 0, false, [], true)
  const A1: NodeState :=
    NodeState(A, [B], 1, A, [SENTINEL, N1], Leader, A, 0, 0, map[B := 1], map[B := 0], 2, false, [], true)
  const B2: NodeState :=
    NodeState(B, [A], 1, A, [SENTINEL, N1], Follower, A, 0, 0, map[], map[], 0, false, [], true)
  const A2: NodeState :=
    NodeState(A, [B], 1, A, [SENTINEL, N1], Leader, A, 1, 0, map[B := 2], map[B := 1], 2, true, [], true)
  const A3: NodeState :=
    NodeState(A, [B], 1, A, [SENTINEL, N1], Leader, A, 1, 1, map[B := 2], map[B := 1], 2, false, [N1], true)
  const A4: NodeState :=
    NodeState(A, [B], 1, A, [SENTINEL, N1, PX], Leader, A, 1, 1, map[B := 2], map[B := 1], 2, false, [N1], true)
  const B3: NodeState :=
    NodeState(B, [A], 1, A, [SENTINEL, N1, PX], Follower, A, 1, 0, map[], map[], 0, true, [], true)
  const B3C: NodeState :=
    NodeState(B, [A], 2, B, [SENTINEL, N1, PX], Candidate, NOBODY, 1, 0, map[], map[], 1, true, [], true)
  const A5: NodeState :=
    NodeState(A, [B], 2, B, [SENTINEL, N1, PX], Follower, A, 1, 1, map[B := 2], map[B := 1], 2, false, [N1], true)
  const B4: NodeState :=
    NodeState(B, [A], 2, B, [SENTINEL, N1, PX, N2], Leader, B, 1, 0, map[A := 3], map[A := 0], 2, true, [], true)
  const A6: NodeState :=
    NodeState(A, [B], 2, B, [SENTINEL, N1, PX, N2], Follower, B, 1, 1, map[B := 2], map[B := 1], 2, false, [N1], true)
  const B5: NodeState :=
    NodeState(B, [A], 2, B, [SENTINEL, N1, PX, N2], Leader, B, 3, 0, map[A := 4], map[A := 3], 2, true, [], true)
  const B6: NodeState :=
    NodeState(B, [A], 2, B, [SENTINEL, N1, PX, N2], Leader, B, 3, 3, map[A := 4], map[A := 3], 2, false, [N1, PX, N2], true)
  const B7: NodeState :=
    NodeState(B, [A], 2, B, [SENTINEL, N1, PX, N2, PXY], Leader, B, 3, 3, map[A := 4], map[A := 3], 2, false, [N1, PX, N2], true)
  const A7: NodeState :=
    NodeState(A, [B], 2, B, [SENTINEL, N1, PX, N2, PXY], Follower, B, 3, 1, map[B := 2], map[B := 1], 2, true, [N1], true)
  const B8: NodeState :=
    NodeState(B, [A], 2, B, [SENTINEL, N1, PX, N2, PXY], Leader, B, 4, 3, map[A := 5], map[A := 4], 2, true, [N1, PX, N2], true)
  const B9: NodeState :=
    NodeState(B, [A], 2, B, [SENTINEL, N1, PX, N2, PXY], Leader, B, 4, 4, map[A := 5], map[A := 4], 2, false, [N1, PX, N2, PXY], true)
  const A8: NodeState :=
    NodeState(A, [B], 2, B, [SENTINEL, N1, PX, N2, PXY], Follower, B, 4, 1, map[B := 2], map[B := 1], 2, true, [N1], true)
  const A9: NodeState :=
    NodeState(A, [B], 2, B, [SENTINEL, N1, PX, N2, PXY], Follower, B, 4, 4, map[B := 2], map[B := 1], 2, false, [N1, PX, N2, PXY], true)
  const A9C: NodeState :=
    NodeState(A, [B], 3, A, [SENTINEL, N1, PX, N2, PXY], Candidate, NOBODY, 4, 4, map[B := 2], map[B := 1], 1, false, [N1, PX, N2, PXY], true)
  const B10: NodeState :=
    NodeState(B, [A], 3, A, [SENTINEL, N1, PX, N2, PXY], Follower, B, 4, 4, map[A := 5], map[A := 4], 2, false, [N1, PX, N2, PXY], true)
  const A10: NodeState :=
    NodeState(A, [B], 3, A, [SENTINEL, N1, PX, N2, PXY, N3], Leader, A, 4, 4, map[B := 5], map[B := 0], 2, false, [N1, PX, N2, PXY], true)
  const B11: NodeState :=
    NodeState(B, [A], 3, A, [SENTINEL, N1, PX, N2, PXY, N3], Follower, A, 4, 4, map[A := 5], map[A := 4], 2, false, [N1, PX, N2, PXY], true)
  const A11: NodeState :=
    NodeState(A, [B], 3, A, [SENTINEL, N1, PX, N2, PXY, N3], Leader, A, 5, 4, map[B := 6], map[B := 5], 2, true, [N1, PX, N2, PXY], true)
  const A12: NodeState :=
    NodeState(A, [B], 3, A, [SENTINEL, N1, PX, N2, PXY, N3], Leader, A, 5, 5, map[B := 6], map[B := 5], 2, false, [N1, PX, N2, PXY, N3], true)
  const A13: NodeState :=
    NodeState(A, [B], 3, A, [SENTINEL, N1, PX, N2, PXY, N3, LOSS], Leader, A, 5, 5, map[B := 6], map[B := 5], 2, false, [N1, PX, N2, PXY, N3], true)
  const B12: NodeState :=
    NodeState(B, [A], 3, A, [SENTINEL, N1, PX, N2, PXY, N3, LOSS], Follower, A, 5, 4, map[A := 5], map[A := 4], 2, true, [N1, PX, N2, PXY], true)
  const A14: NodeState :=
    NodeState(A, [B], 3, A, [SENTINEL, N1, PX, N2, PXY, N3, LOSS], Leader, A, 6, 5, map[B := 7], map[B := 6], 2, true, [N1, PX, N2, PXY, N3], true)

  /** A peer that has index `n` makes it committable. */
  lemma Counted(s: NodeState, p: NodeId, n: nat)
    requires s.peers == [p] && p in s.matchIndex && s.matchIndex[p] >= n
    requires n < |s.log| && s.log[n].term == s.currentTerm
    ensures Committable(s, n)
  {
    assert s.peers[..0] == [] && Last'(s.peers) == p;
    assert CountAtLeast(s.peers[..0], s.matchIndex, n) == 0;
    assert CountAtLeast(s.peers, s.matchIndex, n) == 1;
  }

  lemma FirstElection()
    ensures A0C == StartElection(A0)
    ensures (B1, RequestVoteReply(1, true)) == HandleRequestVote(B0, VoteRequest(A0C))
    ensures A1 == ReceiveVoteReply(A0C, 1, RequestVoteReply(1, true))
  {
    assert (map q | q in [B] :: |A0.log|) == map[B := |A0.log|];
    assert (map q | q in [B] :: 0) == map[B := 0];
  }

  lemma SecondElection()
    ensures B3C == StartElection(B3)
    ensures (A5, RequestVoteReply(2, true)) == HandleRequestVote(A4, VoteRequest(B3C))
    ensures B4 == ReceiveVoteReply(B3C, 2, RequestVoteReply(2, true))
  {
    assert (map q | q in [A] :: |B3.log|) == map[A := |B3.log|];
    assert (map q | q in [A] :: 0) == map[A := 0];
  }

  lemma ThirdElection()
    ensures A9C == StartElection(A9)
    ensures (B10, RequestVoteReply(3, true)) == HandleRequestVote(B9, VoteRequest(A9C))
    ensures A10 == ReceiveVoteReply(A9C, 3, RequestVoteReply(3, true))
  {
    assert (map q | q in [B] :: |A9.log|) == map[B := |A9.log|];
    assert (map q | q in [B] :: 0) == map[B := 0];
  }

  lemma FirstNoOpCounts()
    ensures CanReplicate(A1, B)
    ensures A2 == ReceiveAppendReply(A1, B, AppendRequest(A1, B), AppendEntriesReply(1, true))
  {
    var noted := A1.(matchIndex := A1.matchIndex[B := 1], nextIndex := A1.nextIndex[B := 2]);
    Counted(noted, B, 1);
    assert NewestCommittable(noted, 1) == 1;
  }

  lemma FirstNoOp()
    ensures CanReplicate(A1, B)
    ensures AppendRequest(A1, B) == AppendEntriesArgs(1, A, 0, 0, [N1], 0)
    ensures HandleAppendEntries(B1, AppendRequest(A1, B)) == (B2, AppendEntriesReply(1, true))
    ensures A2 == ReceiveAppendReply(A1, B, AppendRequest(A1, B), AppendEntriesReply(1, true))
  {
    assert A1.log[1..] == [N1];
    var args := AppendEntriesArgs(1, A, 0, 0, [N1], 0);
    assert !Has(B1.log, 1, args.entries, 0);
    assert B1.log[..1] + args.entries[0..] == B2.log;
    assert Merge(B1.log, 1, args.entries) == B2.log;
    FirstNoOpCounts();
  }

  lemma XReachesB()
    ensures CanReplicate(A4, B)
    ensures AppendRequest(A4, B) == AppendEntriesArgs(1, A, 1, 1, [PX], 1)
    ensures HandleAppendEntries(B2, AppendRequest(A4, B)) == (B3, AppendEntriesReply(1, true))
  {
    assert A4.log[2..] == [PX];
    var args := AppendEntriesArgs(1, A, 1, 1, [PX], 1);
    assert !Has(B2.log, 2, args.entries, 0);
    assert B2.log[..2] + args.entries[0..] == B3.log;
    assert Merge(B2.log, 2, args.entries) == B3.log;
  }

  lemma SecondNoOpCounts()
    ensures CanReplicate(B4, A)
    ensures B5 == ReceiveAppendReply(B4, A, AppendRequest(B4, A), AppendEntriesReply(2, true))
  {
    var noted := B4.(matchIndex := B4.matchIndex[A := 3], nextIndex := B4.nextIndex[A := 4]);
    Counted(noted, A, 3);
    assert NewestCommittable(noted, 3) == 3;
  }

  lemma SecondNoOp()
    ensures CanReplicate(B4, A)
    ensures AppendRequest(B4, A) == AppendEntriesArgs(2, B, 2, 1, [N2], 1)
    ensures HandleAppendEntries(A5, AppendRequest(B4, A)) == (A6, AppendEntriesReply(2, true))
    ensures B5 == ReceiveAppendReply(B4, A, AppendRequest(B4, A), AppendEntriesReply(2, true))
  {
    assert B4.log[3..] == [N2];
    var args := AppendEntriesArgs(2, B, 2, 1, [N2], 1);
    assert !Has(A5.log, 3, args.entries, 0);
    assert A5.log[..3] + args.entries[0..] == A6.log;
    assert Merge(A5.log, 3, args.entries) == A6.log;
    SecondNoOpCounts();
  }

  lemma YCounts()
    ensures CanReplicate(B7, A)
    ensures B8 == ReceiveAppendReply(B7, A, AppendRequest(B7, A), AppendEntriesReply(2, true))
  {
    var noted := B7.(matchIndex := B7.matchIndex[A := 4], nextIndex := B7.nextIndex[A := 5]);
    Counted(noted, A, 4);
    assert NewestCommittable(noted, 4) == 4;
  }

  lemma YCommits()
    ensures CanReplicate(B7, A)
    ensures AppendRequest(B7, A) == AppendEntriesArgs(2, B, 3, 2, [PXY], 3)
    ensures HandleAppendEntries(A6, AppendRequest(B7, A)) == (A7, AppendEntriesReply(2, true))
    ensures B8 == ReceiveAppendReply(B7, A, AppendRequest(B7, A), AppendEntriesReply(2, true))
  {
    assert B7.log[4..] == [PXY];
    var args := AppendEntriesArgs(2, B, 3, 2, [PXY], 3);
    assert !Has(A6.log, 4, args.entries, 0);
    assert A6.log[..4] + args.entries[0..] == A7.log;
    assert Merge(A6.log, 4, args.entries) == A7.log;
    YCounts();
  }

  lemma CommitReachesA()
    ensures CanReplicate(B9, A)
    ensures AppendRequest(B9, A) == AppendEntriesArgs(2, B, 4, 2, [], 4)
    ensures HandleAppendEntries(A7, AppendRequest(B9, A)) == (A8, AppendEntriesReply(2, true))
  {
    assert B9.log[5..] == [];
    var args := AppendEntriesArgs(2, B, 4, 2, [], 4);
    assert Merge(A7.log, 5, args.entries) == A8.log;
  }

  lemma ThirdNoOpCounts()
    ensures CanReplicate(A10, B)
    ensures A11 == ReceiveAppendReply(A10, B, AppendRequest(A10, B), AppendEntriesReply(3, true))
  {
    var noted := A10.(matchIndex := A10.matchIndex[B := 5], nextIndex := A10.nextIndex[B := 6]);
    Counted(noted, B, 5);
    assert NewestCommittable(noted, 5) == 5;
  }

  lemma ThirdNoOp()
    ensures CanReplicate(A10, B)
    ensures AppendRequest(A10, B) == AppendEntriesArgs(3, A, 4, 2, [N3], 4)
    ensures HandleAppendEntries(B10, AppendRequest(A10, B)) == (B11, AppendEntriesReply(3, true))
    ensures A11 == ReceiveAppendReply(A10, B, AppendRequest(A10, B), AppendEntriesReply(3, true))
  {
    assert A10.log[5..] == [N3];
    var args := AppendEntriesArgs(3, A, 4, 2, [N3], 4);
    assert !Has(B10.log, 5, args.entries, 0);
    assert B10.log[..5] + args.entries[0..] == B11.log;
    assert Merge(B10.log, 5, args.entries) == B11.log;
    ThirdNoOpCounts();
  }

  lemma LossCounts()
    ensures CanReplicate(A13, B)
    ensures A14 == ReceiveAppendReply(A13, B, AppendRequest(A13, B), AppendEntriesReply(3, true))
  {
    var noted := A13.(matchIndex := A13.matchIndex[B := 6], nextIndex := A13.nextIndex[B := 7]);
    Counted(noted, B, 6);
    assert NewestCommittable(noted, 6) == 6;
  }

  lemma LossCommits()
    ensures CanReplicate(A13, B)
    ensures AppendRequest(A13, B) == AppendEntriesArgs(3, A, 5, 3, [LOSS], 5)
    ensures HandleAppendEntries(B11, AppendRequest(A13, B)) == (B12, AppendEntriesReply(3, true))
    ensures A14 == ReceiveAppendReply(A13, B, AppendRequest(A13, B), AppendEntriesReply(3, true))
  {
    assert A13.log[6..] == [LOSS];
    var args := AppendEntriesArgs(3, A, 5, 3, [LOSS], 5);
    assert !Has(B11.log, 6, args.entries, 0);
    assert B11.log[..6] + args.entries[0..] == B12.log;
    assert Merge(B11.log, 6, args.entries) == B12.log;
    LossCounts();
  }

  // ---------- what is applied and proposed ----------

  lemma FirstApply()
    ensures A3 == RaftSpec.Apply(A2)
    ensures ApplyRange(map[], A3.log, 0, 1) == map[]
  {}

  lemma XProposed()
    ensures CaughtUp(A3) && A4 == Propose(A3, Snapshot(Put(map[], X))) && Put(map[], X) == MX
  {}

  lemma XApplied()
    ensures B6 == RaftSpec.Apply(B5)
    ensures ApplyRange(map[], B6.log, 0, 3) == MX
  {
    assert B5.log[1..4] == [N1, PX, N2];
    assert ApplyRange(map[], B6.log, 0, 1) == map[];
    assert ApplyRange(map[], B6.log, 0, 2) == MX;
  }

  lemma YProposed()
    ensures CaughtUp(B6) && B7 == Propose(B6, Snapshot(Put(MX, Y))) && Put(MX, Y) == MXY
  {}

  lemma YApplied()
    ensures B9 == RaftSpec.Apply(B8)
    ensures ApplyRange(MXY, B9.log, 3, 4) == MXY
  {
    assert B8.log[4..5] == [PXY];
  }

  lemma BothApplied()
    ensures A9 == RaftSpec.Apply(A8)
    ensures ApplyRange(MX, A9.log, 1, 4) == MXY
  {
    assert A8.log[2..5] == [PX, N2, PXY];
    assert A9.log[4] == PXY;
  }

  lemma LastApply()
    ensures A12 == RaftSpec.Apply(A11)
    ensures ApplyRange(map[], A12.log, 4, 5) == map[]
  {
    assert A11.log[5..6] == [N3];
  }

  lemma LossProposed()
    ensures CaughtUp(A12) && StepAll(map[], GRID) == map[] && A13 == Propose(A12, Snapshot(map[]))
  {}

  lemma LossReplayed()
    ensures Replay(A14.log, 6) == map[]
  {
    assert A14.log[6] == LOSS;
  }

  // ---------- the run ----------

  lemma Beginning() returns (run: seq<Group>)
    ensures At(run, Both(Stop(A0), Stop(B0)), Replicas(FRESH, FRESH), {})
  {
    var nodes := Both(Stop(A0), Stop(B0));
    var c := Cluster(nodes, {}, {}, {}, {}, {}, {}, 0, InitialHistory(nodes.Keys));
    assert PeersOf(nodes.Keys, A, [B]) && PeersOf(nodes.Keys, B, [A]);
    assert nodes[A] == NewNode(A, [B]) && nodes[B] == NewNode(B, [A]);
    run := [Group(GRID, c, Replicas(FRESH, FRESH), {}, [], map[], map[])];
  }

  lemma SetA(a: NodeState, b: NodeState, l: Local, m: Local, a': NodeState, l': Local)
    ensures Both(a, b)[A := a'] == Both(a', b) && Replicas(l, m)[A := l'] == Replicas(l', m)
  {}

  lemma SetB(a: NodeState, b: NodeState, l: Local, m: Local, b': NodeState, m': Local)
    ensures Both(a, b)[B := b'] == Both(a, b') && Replicas(l, m)[B := m'] == Replicas(l, m')
  {}

  lemma SetBoth(a: NodeState, b: NodeState, a': NodeState, b': NodeState)
    ensures Both(a, b)[B := b'][A := a'] == Both(a', b') && Both(a, b)[A := a'][B := b'] == Both(a', b')
  {}

  lemma ElectAtA(before: seq<Group>, a: NodeState, b: NodeState, l: Local, m: Local, yes: set<Acceptance>,
                 cand: NodeState, b': NodeState, reply: RequestVoteReply, a': NodeState) returns (run: seq<Group>)
    requires At(before, Both(a, b), Replicas(l, m), yes)
    requires a.running && a.role != Leader && a.peers == [B] && cand == StartElection(a) && |cand.log| > 0 && |b.log| > 0
    requires (b', reply) == HandleRequestVote(b, VoteRequest(cand)) && a' == ReceiveVoteReply(cand, cand.currentTerm, reply)
    requires Fit(A, cand) && Fit(B, b') && Fit(A, a')
    ensures At(run, Both(a', b'), Replicas(l, m), yes)
  {
    run := Elect(before, Both(a, b), Replicas(l, m), yes, A, B, cand, b', reply, a');
    SetBoth(a, b, a', b');
  }

  lemma ElectAtB(before: seq<Group>, a: NodeState, b: NodeState, l: Local, m: Local, yes: set<Acceptance>,
                 cand: NodeState, a': NodeState, reply: RequestVoteReply, b': NodeState) returns (run: seq<Group>)
    requires At(before, Both(a, b), Replicas(l, m), yes)
    requires b.running && b.role != Leader && b.peers == [A] && cand == StartElection(b) && |cand.log| > 0 && |a.log| > 0
    requires (a', reply) == HandleRequestVote(a, VoteRequest(cand)) && b' == ReceiveVoteReply(cand, cand.currentTerm, reply)
    requires Fit(B, cand) && Fit(A, a') && Fit(B, b')
    ensures At(run, Both(a', b'), Replicas(l, m), yes)
  {
    run := Elect(before, Both(a, b), Replicas(l, m), yes, B, A, cand, a', reply, b');
    SetBoth(a, b, a', b');
  }

  lemma ReplicateFromA(before: seq<Group>, a: NodeState, b: NodeState, l: Local, m: Local, yes: set<Acceptance>,
                       b': NodeState, reply: AppendEntriesReply, a': NodeState) returns (run: seq<Group>)
    requires At(before, Both(a, b), Replicas(l, m), yes)
    requires a.running && a.role == Leader && a.peers == [B] && CanReplicate(a, B)
    requires (b', reply) == HandleAppendEntries(b, AppendRequest(a, B)) && Fit(B, b')
    requires a' == ReceiveAppendReply(a, B, AppendRequest(a, B), reply) && Fit(A, a')
    ensures At(run, Both(a', b'), Replicas(l, m), yes)
  {
    run := Replicate(before, Both(a, b), Replicas(l, m), yes, A, B, b', reply, a');
    SetBoth(a, b, a', b');
  }

  lemma ReplicateFromB(before: seq<Group>, a: NodeState, b: NodeState, l: Local, m: Local, yes: set<Acceptance>,
                       a': NodeState, reply: AppendEntriesReply, b': NodeState) returns (run: seq<Group>)
    requires At(before, Both(a, b), Replicas(l, m), yes)
    requires b.running && b.role == Leader && b.peers == [A] && CanReplicate(b, A)
    requires (a', reply) == HandleAppendEntries(a, AppendRequest(b, A)) && Fit(A, a')
    requires b' == ReceiveAppendReply(b, A, AppendRequest(b, A), reply) && Fit(B, b')
    ensures At(run, Both(a', b'), Replicas(l, m), yes)
  {
    run := Replicate(before, Both(a, b), Replicas(l, m), yes, B, A, a', reply, b');
    SetBoth(a, b, a', b');
  }

  lemma SendFromA(before: seq<Group>, a: NodeState, b: NodeState, l: Local, m: Local, yes: set<Acceptance>,
                  b': NodeState) returns (run: seq<Group>)
    requires At(before, Both(a, b), Replicas(l, m), yes)
    requires a.running && a.role == Leader && a.peers == [B] && CanReplicate(a, B)
    requires b' == HandleAppendEntries(b, AppendRequest(a, B)).0 && Fit(B, b')
    ensures At(run, Both(a, b'), Replicas(l, m), yes)
  {
    run := Send(before, Both(a, b), Replicas(l, m), yes, A, B, b');
    SetB(a, b, l, m, b', m);
  }

  lemma SendFromB(before: seq<Group>, a: NodeState, b: NodeState, l: Local, m: Local, yes: set<Acceptance>,
                  a': NodeState) returns (run: seq<Group>)
    requires At(before, Both(a, b), Replicas(l, m), yes)
    requires b.running && b.role == Leader && b.peers == [A] && CanReplicate(b, A)
    requires a' == HandleAppendEntries(a, AppendRequest(b, A)).0 && Fit(A, a')
    ensures At(run, Both(a', b), Replicas(l, m), yes)
  {
    run := Send(before, Both(a, b), Replicas(l, m), yes, B, A, a');
    SetA(a, b, l, m, a', l);
  }

  /** The wait of `add_agent` at `a` is over, in vain. */
  lemma TakeBackAtA(before: seq<Group>, a: NodeState, b: NodeState, l: Local, m: Local, yes: set<Acceptance>,
                    l': Local) returns (run: seq<Group>)
    requires At(before, Both(a, b), Replicas(l, m), yes)
    requires l.task.Adding? && PollApplied(a, l.task.index, l.task.term) != Ready && l' == RollBack(l)
    ensures At(run, Both(a, b), Replicas(l', m), yes)
  {
    run := Answer(before, Both(a, b), Replicas(l, m), yes, A);
    SetA(a, b, l, m, a, l');
  }

  /** The wait of `add_agent` at `b` is over, and the answer is yes. */
  lemma AcceptAtB(before: seq<Group>, a: NodeState, b: NodeState, l: Local, m: Local, yes: set<Acceptance>,
                  m': Local, yes': set<Acceptance>) returns (run: seq<Group>)
    requires At(before, Both(a, b), Replicas(l, m), yes)
    requires m.task.Adding? && PollApplied(b, m.task.index, m.task.term) == Ready && m' == FinishAdd(m)
    requires yes' == yes + {Acceptance(B, m.task.agent, m.task.index, m.task.term)}
    ensures At(run, Both(a, b), Replicas(l, m'), yes')
  {
    run := Answer(before, Both(a, b), Replicas(l, m), yes, B);
    SetB(a, b, l, m, b, m');
  }

  lemma DeliverAtA(before: seq<Group>, a: NodeState, b: NodeState, l: Local, m: Local, yes: set<Acceptance>,
                   a': NodeState, l': Local) returns (run: seq<Group>)
    requires At(before, Both(a, b), Replicas(l, m), yes)
    requires a.running && a.applySignal && a.lastApplied < a.commitIndex < |a.log| && a' == RaftSpec.Apply(a)
    requires l' == l.(agents := ApplyRange(l.agents, a'.log, a.lastApplied, a'.commitIndex))
    ensures At(run, Both(a', b), Replicas(l', m), yes)
  {
    run := Deliver(before, Both(a, b), Replicas(l, m), yes, A, a', l'.agents);
    SetA(a, b, l, m, a', l');
  }

  lemma DeliverAtB(before: seq<Group>, a: NodeState, b: NodeState, l: Local, m: Local, yes: set<Acceptance>,
                   b': NodeState, m': Local) returns (run: seq<Group>)
    requires At(before, Both(a, b), Replicas(l, m), yes)
    requires b.running && b.applySignal && b.lastApplied < b.commitIndex < |b.log| && b' == RaftSpec.Apply(b)
    requires m' == m.(agents := ApplyRange(m.agents, b'.log, b.lastApplied, b'.commitIndex))
    ensures At(run, Both(a, b'), Replicas(l, m'), yes)
  {
    run := Deliver(before, Both(a, b), Replicas(l, m), yes, B, b', m'.agents);
    SetB(a, b, l, m, b', m');
  }

  lemma AddAtA(before: seq<Group>, a: NodeState, b: NodeState, l: Local, m: Local, yes: set<Acceptance>,
               agent: Agent, a': NodeState, l': Local) returns (run: seq<Group>)
    requires At(before, Both(a, b), Replicas(l, m), yes)
    requires a.role == Leader && CaughtUp(a) && l.task == Free && a' == Propose(a, Snapshot(Put(l.agents, agent)))
    requires l' == Local(Put(l.agents, agent), Adding(agent, l.agents, |a.log|, a.currentTerm), l.ticking)
    ensures At(run, Both(a', b), Replicas(l', m), yes)
  {
    run := Add(before, Both(a, b), Replicas(l, m), yes, A, agent, a', l');
    SetA(a, b, l, m, a', l');
  }

  lemma AddAtB(before: seq<Group>, a: NodeState, b: NodeState, l: Local, m: Local, yes: set<Acceptance>,
               agent: Agent, b': NodeState, m': Local) returns (run: seq<Group>)
    requires At(before, Both(a, b), Replicas(l, m), yes)
    requires b.role == Leader && CaughtUp(b) && m.task == Free && b' == Propose(b, Snapshot(Put(m.agents, agent)))
    requires m' == Local(Put(m.agents, agent), Adding(agent, m.agents, |b.log|, b.currentTerm), m.ticking)
    ensures At(run, Both(a, b'), Replicas(l, m'), yes)
  {
    run := Add(before, Both(a, b), Replicas(l, m), yes, B, agent, b', m');
    SetB(a, b, l, m, b', m');
  }

  lemma TickAtA(before: seq<Group>, a: NodeState, b: NodeState, l: Local, m: Local, yes: set<Acceptance>,
                a': NodeState) returns (run: seq<Group>)
    requires At(before, Both(a, b), Replicas(l, m), yes)
    requires a.role == Leader && CaughtUp(a) && l.task == Free && !l.ticking
    requires StepAll(l.agents, GRID) == l.agents && a' == Propose(a, Snapshot(l.agents))
    ensures At(run, Both(a', b), Replicas(l, m), yes)
  {
    run := Tick(before, Both(a, b), Replicas(l, m), yes, A, a', l);
    SetA(a, b, l, m, a', l);
  }

  lemma StartA(before: seq<Group>, a: NodeState, b: NodeState, l: Local, m: Local, yes: set<Acceptance>)
    returns (run: seq<Group>)
    requires At(before, Both(a, b), Replicas(l, m), yes) && !a.running
    ensures At(run, Both(Start(a), b), Replicas(l, m), yes)
  {
    run := StartUp(before, Both(a, b), Replicas(l, m), yes, A);
    SetA(a, b, l, m, Start(a), l);
  }

  lemma StartB(before: seq<Group>, a: NodeState, b: NodeState, l: Local, m: Local, yes: set<Acceptance>)
    returns (run: seq<Group>)
    requires At(before, Both(a, b), Replicas(l, m), yes) && !b.running
    ensures At(run, Both(a, Start(b)), Replicas(l, m), yes)
  {
    run := StartUp(before, Both(a, b), Replicas(l, m), yes, B);
    SetB(a, b, l, m, Start(b), m);
  }

  lemma BothStart()
    ensures Start(Stop(A0)) == A0 && Start(Stop(B0)) == B0
    ensures !Stop(A0).running && !Stop(B0).running
  {}

  /** `a` starts. `b` starts. */
  lemma Starts(before: seq<Group>) returns (run: seq<Group>)
    requires At(before, Both(Stop(A0), Stop(B0)), Replicas(FRESH, FRESH), {})
    ensures At(run, Both(A0, B0), Replicas(FRESH, FRESH), {})
  {
    BothStart();
    run := StartA(before, Stop(A0), Stop(B0), FRESH, FRESH, {});
    run := StartB(run, A0, Stop(B0), FRESH, FRESH, {});
  }

  /** `a` wins term 1. Its no-op commits. */
  lemma XIsProposed(before: seq<Group>) returns (run: seq<Group>)
    requires At(before, Both(A0, B0), Replicas(FRESH, FRESH), {})
    ensures At(run, Both(A2, B2), Replicas(FRESH, FRESH), {})
  {
    FirstElection();
    run := ElectAtA(before, A0, B0, FRESH, FRESH, {}, A0C, B1, RequestVoteReply(1, true), A1);
    FirstNoOp();
    run := ReplicateFromA(run, A1, B1, FRESH, FRESH, {}, B2, AppendEntriesReply(1, true), A2);
  }

  /** `a` is caught up. `a` proposes x. The entry reaches `b`, the answer is lost. */
  lemma XReaches(before: seq<Group>) returns (run: seq<Group>)
    requires At(before, Both(A2, B2), Replicas(FRESH, FRESH), {})
    ensures At(run, Both(A4, B3), Replicas(HOLDS_X, FRESH), {})
  {
    FirstApply();
    run := DeliverAtA(before, A2, B2, FRESH, FRESH, {}, A3, FRESH);
    XProposed();
    run := AddAtA(run, A3, B2, FRESH, FRESH, {}, X, A4, HOLDS_X);
    XReachesB();
    run := SendFromA(run, A4, B2, HOLDS_X, FRESH, {}, B3);
  }

  /** `b` wins term 2. Its no-op commits, and x with it. */
  lemma BLeads(before: seq<Group>) returns (run: seq<Group>)
    requires At(before, Both(A4, B3), Replicas(HOLDS_X, FRESH), {})
    ensures At(run, Both(A6, B5), Replicas(HOLDS_X, FRESH), {})
  {
    SecondElection();
    run := ElectAtB(before, A4, B3, HOLDS_X, FRESH, {}, B3C, A5, RequestVoteReply(2, true), B4);
    SecondNoOp();
    run := ReplicateFromB(run, A5, B4, HOLDS_X, FRESH, {}, A6, AppendEntriesReply(2, true), B5);
  }

  /** `b` is caught up. `b` proposes y. */
  lemma YIsProposed(before: seq<Group>) returns (run: seq<Group>)
    requires At(before, Both(A6, B5), Replicas(HOLDS_X, FRESH), {})
    ensures At(run, Both(A6, B7), Replicas(HOLDS_X, HOLDS_Y), {})
  {
    XApplied();
    run := DeliverAtB(before, A6, B5, HOLDS_X, FRESH, {}, B6, HAS_X);
    YProposed();
    run := AddAtB(run, A6, B6, HOLDS_X, HAS_X, {}, Y, B7, HOLDS_Y);
  }

  /** y commits. */
  lemma YIsStored(before: seq<Group>) returns (run: seq<Group>)
    requires At(before, Both(A6, B7), Replicas(HOLDS_X, HOLDS_Y), {})
    ensures At(run, Both(A7, B8), Replicas(HOLDS_X, HOLDS_Y), {})
  {
    YCommits();
    run := ReplicateFromB(before, A6, B7, HOLDS_X, HOLDS_Y, {}, A7, AppendEntriesReply(2, true), B8);
  }

  /** `b` applies y and accepts it. */
  lemma YIsAccepted(before: seq<Group>) returns (run: seq<Group>)
    requires At(before, Both(A7, B8), Replicas(HOLDS_X, HOLDS_Y), {})
    ensures At(run, Both(A7, B9), Replicas(HOLDS_X, HAS_Y), YES)
  {
    YApplied();
    run := DeliverAtB(before, A7, B8, HOLDS_X, HOLDS_Y, {}, B9, HOLDS_Y);
    run := AcceptAtB(run, A7, B9, HOLDS_X, HOLDS_Y, {}, HAS_Y, YES);
  }

  /** `a` hears of the commit. `a` applies x and y. */
  lemma AHearsOfIt(before: seq<Group>) returns (run: seq<Group>)
    requires At(before, Both(A7, B9), Replicas(HOLDS_X, HAS_Y), YES)
    ensures At(run, Both(A9, B9), Replicas(LATE, HAS_Y), YES)
  {
    CommitReachesA();
    run := SendFromB(before, A7, B9, HOLDS_X, HAS_Y, YES, A8);
    BothApplied();
    run := DeliverAtA(run, A8, B9, HOLDS_X, HAS_Y, YES, A9, LATE);
  }

  /** Only now `a` notices that it was deposed, and rolls back. */
  lemma ACatchesUp(before: seq<Group>) returns (run: seq<Group>)
    requires At(before, Both(A7, B9), Replicas(HOLDS_X, HAS_Y), YES)
    ensures At(run, Both(A9, B9), Replicas(FRESH, HAS_Y), YES)
  {
    run := AHearsOfIt(before);
    run := TakeBackAtA(run, A9, B9, LATE, HAS_Y, YES, FRESH);
  }

  /** `a` wins term 3. Its no-op commits. */
  lemma ALeadsAgain(before: seq<Group>) returns (run: seq<Group>)
    requires At(before, Both(A9, B9), Replicas(FRESH, HAS_Y), YES)
    ensures At(run, Both(A11, B11), Replicas(FRESH, HAS_Y), YES)
  {
    ThirdElection();
    run := ElectAtA(before, A9, B9, FRESH, HAS_Y, YES, A9C, B10, RequestVoteReply(3, true), A10);
    ThirdNoOp();
    run := ReplicateFromA(run, A10, B10, FRESH, HAS_Y, YES, B11, AppendEntriesReply(3, true), A11);
  }

  /** `a` finds itself caught up. A tick at `a` proposes what `a` holds. It commits. */
  lemma YIsOverwritten(before: seq<Group>) returns (run: seq<Group>)
    requires At(before, Both(A11, B11), Replicas(FRESH, HAS_Y), YES)
    ensures At(run, Both(A14, B12), Replicas(FRESH, HAS_Y), YES)
  {
    LastApply();
    run := DeliverAtA(before, A11, B11, FRESH, HAS_Y, YES, A12, FRESH);
    LossProposed();
    run := TickAtA(run, A12, B11, FRESH, HAS_Y, YES, A13);
    LossCommits();
    run := ReplicateFromA(run, A13, B11, FRESH, HAS_Y, YES, B12, AppendEntriesReply(3, true), A14);
  }

  lemma YIsErased() returns (run: seq<Group>)
    ensures At(run, Both(A14, B12), Replicas(FRESH, HAS_Y), YES)
  {
    run := Beginning();
    run := Starts(run);
    run := XIsProposed(run);
    run := XReaches(run);
    run := BLeads(run);
    run := YIsProposed(run);
    run := YIsStored(run);
    run := YIsAccepted(run);
    run := ACatchesUp(run);
    run := ALeadsAgain(run);
    run := YIsOverwritten(run);
  }

  /** An accepted agent can be lost: in some run y is accepted, nobody is ever
      asked to remove an agent, and still the committed log ends up describing
      a shard without y. */
  lemma AcceptedAgentCanBeLost() returns (run: seq<Group>, n: NodeId, a: Acceptance)
    ensures GroupRun(run)
    ensures var g := run[|run| - 1];
            && a in g.accepted && n in g.raft.nodes
            && var s := g.raft.nodes[n];
            && a.index < s.commitIndex < |s.log|
            && a.agent.id !in Replay(s.log, s.commitIndex)
    ensures forall k, m | 0 <= k < |run| && m in run[k].locals :: !run[k].locals[m].task.WaitToRemove?
  {
    run := YIsErased();
    LossReplayed();
    n, a := A, Acceptance(B, Y, 4, 2);
  }
}
