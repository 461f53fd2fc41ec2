/** A Raft node as the program has it: an object whose handlers update its
    fields in place (src/dssd/raft.py). Every method is proved to do exactly
    the step of `RaftSpec` with its name. */
module RaftNode {
  import opened RaftTypes
  import Spec = RaftSpec

  class Raft {
    const id: NodeId
    const peers: seq<NodeId>
    var currentTerm: nat
    var votedFor: NodeId
    var log: Log
    var role: Role
    var leaderId: NodeId
    var commitIndex: nat
    var lastApplied: nat
    var nextIndex: map<NodeId, nat>
    var matchIndex: map<NodeId, nat>
    var votes: nat
    var applySignal: bool
    var applied: Log
    var running: bool

    function State(): NodeState
      reads this
    {
      NodeState(id, peers, currentTerm, votedFor, log, role, leaderId, commitIndex, lastApplied,
                nextIndex, matchIndex, votes, applySignal, applied, running)
    }

    constructor (id: NodeId, peers: seq<NodeId>)
      ensures State() == Spec.NewNode(id, peers)
    {
      this.id, this.peers := id, peers;
      currentTerm, votedFor, log, role, leaderId := 0, NOBODY, [SENTINEL], Follower, NOBODY;
      commitIndex, lastApplied, nextIndex, matchIndex, votes := 0, 0, map[], map[], 0;
      applySignal, applied, running := false, [], false;
    }

    method Start()
      modifies this
      ensures State() == Spec.Start(old(State()))
    {
      role := Follower;
      leaderId := NOBODY;
      running := true;
    }

    method Stop()
      modifies this`running
      ensures State() == Spec.Stop(old(State()))
    {
      running := false;
    }

    method Propose(command: Command) returns (index: nat, term: nat, isLeader: bool)
      modifies this`log
      ensures State() == Spec.Propose(old(State()), command)
      ensures isLeader == (role == Leader)
      ensures if isLeader then index == old(|log|) && term == currentTerm && index < |log| && log[index].command == command
              else index == 0 && term == 0
    {
      if role != Leader {
        return 0, 0, false;
      }
      var entry := Entry(currentTerm, |log|, command);
      log := log + [entry];
      return entry.index, entry.term, true;
    }

    method StartElection() returns (args: RequestVoteArgs)
      requires |log| > 0
      modifies this
      ensures State() == Spec.StartElection(old(State()))
      ensures args == Spec.VoteRequest(State())
    {
      role := Candidate;
      currentTerm := currentTerm + 1;
      votedFor := id;
      leaderId := NOBODY;
      var last := log[|log| - 1];
      args := RequestVoteArgs(currentTerm, id, last.index, last.term);
      votes := 1;
    }

    method ReceiveVoteReply(term: nat, reply: RequestVoteReply)
      modifies this
      ensures State() == Spec.ReceiveVoteReply(old(State()), term, reply)
    {
      if reply.term > currentTerm {
        BecomeFollower(reply.term);
      } else if role == Candidate && currentTerm == term && reply.voteGranted {
        votes := votes + 1;
        if votes >= (|peers| + 1) / 2 + 1 {
          BecomeLeader();
        }
      }
    }

    method BecomeFollower(term: nat)
      modifies this`currentTerm, this`votedFor, this`role
      ensures State() == Spec.BecomeFollower(old(State()), term)
    {
      currentTerm := term;
      votedFor := NOBODY;
      role := Follower;
    }

    method BecomeLeader()
      modifies this
      ensures State() == Spec.BecomeLeader(old(State()))
    {
      if role != Candidate {
        return;
      }
      role := Leader;
      leaderId := id;
      nextIndex := map p | p in peers :: |log|;
      matchIndex := map p | p in peers :: 0;
      var _, _, _ := Propose(NoOp);
    }

    method HandleRequestVote(args: RequestVoteArgs) returns (reply: RequestVoteReply)
      requires |log| > 0
      modifies this
      ensures (State(), reply) == Spec.HandleRequestVote(old(State()), args)
    {
      if args.term > currentTerm {
        BecomeFollower(args.term);
      }
      var last := log[|log| - 1];
      var logOk := args.lastLogTerm > last.term
                   || (args.lastLogTerm == last.term && args.lastLogIndex >= last.index);
      var granted := args.term == currentTerm && votedFor in {NOBODY, args.candidateId} && logOk;
      if granted {
        votedFor := args.candidateId;
      }
      reply := RequestVoteReply(currentTerm, granted);
    }

    method HandleAppendEntries(args: AppendEntriesArgs) returns (reply: AppendEntriesReply)
      requires |log| > 0
      modifies this
      ensures (State(), reply) == Spec.HandleAppendEntries(old(State()), args)
    {
      if args.term > currentTerm {
        BecomeFollower(args.term);
      }
      if args.term < currentTerm {
        return AppendEntriesReply(currentTerm, false);
      }
      role := Follower;
      leaderId := args.leaderId;
      if args.prevLogIndex >= |log| || log[args.prevLogIndex].term != args.prevLogTerm {
        return AppendEntriesReply(currentTerm, false);
      }
      TakeAppend(args);
      reply := AppendEntriesReply(currentTerm, true);
    }

    /** The rest of `HandleAppendEntries`, once the log matches at the entry before the new ones. */
    method TakeAppend(args: AppendEntriesArgs)
      requires Spec.LogAccepts(log, args)
      modifies this`log, this`commitIndex, this`applySignal
      ensures State() == Spec.TakeAppend(old(State()), args)
    {
      TakeEntries(args.prevLogIndex + 1, args.entries);
      if args.leaderCommit > commitIndex {
        commitIndex := Spec.Min(args.leaderCommit, |log| - 1);
        applySignal := true;
      }
    }

    /** The loop over the received entries: the first one this log lacks
        replaces everything from its position on. */
    method TakeEntries(base: nat, entries: Log)
      requires base <= |log|
      modifies this`log
      ensures log == Spec.Merge(old(log), base, entries)
    {
      ghost var k := Spec.MatchLength(log, base, entries);
      for i := 0 to |entries|
        invariant i <= k
        invariant log == old(log)
      {
        var index := base + i;
        if index < |log| && log[index].term == entries[i].term {
          assert Spec.Has(log, base, entries, i);
          continue;
        }
        assert !Spec.Has(log, base, entries, i);
        log := log[..index] + entries[i..];
        break;
      }
    }

    /** The first half of a replication task for `peer` in `term`: nothing is
        sent unless this node still leads that term. */
    method ReplicateTo(peer: NodeId, term: nat) returns (sent: bool, args: AppendEntriesArgs)
      requires role == Leader ==> Spec.CanReplicate(State(), peer)
      ensures sent == (role == Leader && currentTerm == term)
      ensures sent ==> args == Spec.AppendRequest(State(), peer)
    {
      if role != Leader || currentTerm != term {
        return false, AppendEntriesArgs(0, NOBODY, 0, 0, [], 0);
      }
      var next := nextIndex[peer];
      args := AppendEntriesArgs(term, id, next - 1, log[next - 1].term, log[next..], commitIndex);
      sent := true;
    }

    /** The second half: the reply to what `ReplicateTo` sent. */
    method ReceiveAppendReply(peer: NodeId, args: AppendEntriesArgs, reply: AppendEntriesReply)
      requires |log| > 0
      requires role == Leader ==> Spec.CanReplicate(State(), peer)
      modifies this
      ensures State() == Spec.ReceiveAppendReply(old(State()), peer, args, reply)
    {
      if reply.term > currentTerm {
        BecomeFollower(reply.term);
      } else if role != Leader || currentTerm != args.term {
        return;
      } else if reply.success {
        matchIndex := matchIndex[peer := args.prevLogIndex + |args.entries|];
        nextIndex := nextIndex[peer := matchIndex[peer] + 1];
        AdvanceCommitIndex();
      } else if nextIndex[peer] > 1 {
        nextIndex := nextIndex[peer := nextIndex[peer] - 1];
      }
    }

    method AdvanceCommitIndex()
      requires |log| > 0
      modifies this`commitIndex, this`applySignal
      ensures State() == Spec.AdvanceCommitIndex(old(State()))
    {
      var n := |log| - 1;
      while n > commitIndex
        invariant State() == old(State())
        invariant n >= 0
        invariant forall m | n < m < |log| && commitIndex < m :: !Spec.Committable(State(), m)
      {
        if log[n].term == currentTerm {
          var have := CountReplicas(n);
          if 1 + have >= (|peers| + 1) / 2 + 1 {
            assert Spec.Committable(State(), n);
            commitIndex := n;
            applySignal := true;
            return;
          }
        }
        n := n - 1;
      }
    }

    method CountReplicas(n: nat) returns (have: nat)
      ensures have == Spec.CountAtLeast(peers, matchIndex, n)
    {
      have := 0;
      for i := 0 to |peers|
        invariant have == Spec.CountAtLeast(peers[..i], matchIndex, n)
      {
        assert peers[..i + 1][..i] == peers[..i];
        if peers[i] in matchIndex && matchIndex[peers[i]] >= n {
          have := have + 1;
        }
      }
      assert peers[..|peers|] == peers;
    }

    /** One wake-up of the applier, from the cleared signal to the next wait. */
    method Apply()
      requires commitIndex < |log|
      modifies this`applySignal, this`lastApplied, this`applied
      ensures State() == Spec.Apply(old(State()))
    {
      applySignal := false;
      while lastApplied < commitIndex
        invariant State() == old(State()).(applySignal := false, lastApplied := lastApplied, applied := applied)
        invariant if old(lastApplied) > commitIndex then lastApplied == old(lastApplied) && applied == old(applied)
                  else old(lastApplied) <= lastApplied <= commitIndex
                       && applied == old(applied) + log[old(lastApplied) + 1..lastApplied + 1]
      {
        lastApplied := lastApplied + 1;
        assert log[old(lastApplied) + 1..lastApplied + 1] == log[old(lastApplied) + 1..lastApplied] + [log[lastApplied]];
        applied := applied + [log[lastApplied]];
      }
    }
  }
}
