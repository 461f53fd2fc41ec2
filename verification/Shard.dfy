/** A shard replica as the program has it: a registry that its methods replace,
    update and roll back in place (src/dssd/sharding/shard_state.py). A coroutine
    is cut at its awaits, and each piece is proved to be the step of `ShardSpec`. */
module Shard {
  import opened World
  import opened RaftTypes
  import opened RaftNode
  import RS = RaftSpec
  import opened Spec = ShardSpec

  class ShardStateMachine {
    const raft: Raft
    var agents: Agents
    var locked: bool

    constructor (raft: Raft)
      ensures this.raft == raft && agents == map[] && !locked
    {
      this.raft, agents, locked := raft, map[], false;
    }

    method ApplyEntry(entry: Entry)
      modifies this`agents
      ensures agents == Spec.ApplyEntry(old(agents), entry)
    {
      if entry.command != NoOp {
        agents := entry.command.agents;
      }
    }

    /** One wake-up of the Raft applier, with `ApplyEntry` as its callback. */
    method Deliver()
      requires raft.lastApplied <= raft.commitIndex < |raft.log|
      modifies this`agents, raft
      ensures raft.State() == RS.Apply(old(raft.State()))
      ensures agents == ApplyRange(old(agents), raft.log, old(raft.lastApplied), raft.lastApplied)
    {
      var first := raft.lastApplied;
      raft.Apply();
      var i := first;
      while i < raft.lastApplied
        invariant first <= i <= raft.lastApplied < |raft.log|
        invariant raft.State() == RS.Apply(old(raft.State()))
        invariant agents == ApplyRange(old(agents), raft.log, first, i)
      {
        i := i + 1;
        ApplyEntry(raft.log[i]);
      }
    }

    method IsCaughtUp() returns (yes: bool)
      requires |raft.log| > 0
      ensures yes == CaughtUp(raft.State())
    {
      yes := raft.lastApplied >= |raft.log| - 1;
    }

    method ProposeTick()
      modifies raft
      ensures raft.State() == RS.Propose(old(raft.State()), Snapshot(agents))
    {
      var _, _, _ := raft.Propose(Snapshot(agents));
    }

    /** One turn of the polling loop. */
    method PollApplied(index: nat, term: nat) returns (poll: Poll)
      ensures poll == Spec.PollApplied(raft.State(), index, term)
    {
      if raft.role != Leader || raft.currentTerm != term {
        return Deposed;
      }
      if raft.lastApplied >= index {
        return Ready;
      }
      return Waiting;
    }

    /** `add_agent` from the lock up to its first wait. */
    method BeginAdd(agent: Agent) returns (index: nat, term: nat)
      requires !locked && |raft.log| > 0
      modifies this`locked
      ensures locked == (raft.role == Leader)
      ensures locked ==> Spec.BeginAdd(raft.State(), Local(agents, Free, false), agent).task == WaitToAdd(agent, index, term)
    {
      index, term := |raft.log| - 1, raft.currentTerm;
      locked := raft.role == Leader;
    }

    /** `add_agent` between its two waits. */
    method AddSnapshot(agent: Agent, index: nat, term: nat) returns (before: Agents, proposed: nat, isLeader: bool)
      requires locked && |raft.log| > 0
      modifies this, raft
      ensures var (s, l) := Spec.AddSnapshot(old(raft.State()), Local(old(agents), WaitToAdd(agent, index, term), false));
              && raft.State() == s && agents == l.agents && locked == isLeader
              && l.task == if isLeader then Adding(agent, before, proposed, raft.currentTerm) else Free
    {
      before := agents;
      agents := agents[agent.id := agent];
      var entryTerm;
      proposed, entryTerm, isLeader := raft.Propose(Snapshot(agents));
      if !isLeader {
        agents := before;
        locked := false;
      }
    }

    /** `add_agent` after its second wait. */
    method EndAdd(agent: Agent, before: Agents, index: nat, term: nat, poll: Poll) returns (accepted: bool)
      requires locked
      modifies this
      ensures var l := Local(old(agents), Adding(agent, before, index, term), false);
              agents == (if poll == Ready then FinishAdd(l) else RollBack(l)).agents
      ensures accepted == (poll == Ready) && !locked
    {
      accepted := poll == Ready;
      if !accepted {
        agents := before;
      }
      locked := false;
    }
  }
}
