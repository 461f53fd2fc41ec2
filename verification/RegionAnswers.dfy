/** What a shard answers when it is asked to take an agent, and what its registry is after a no
    (src/dssd/sharding/handoff.py, src/dssd/sharding/shard_state.py). */
module RegionAnswers {
  import opened World
  import opened RaftTypes
  import opened ShardSpec
  import opened RegionSpec
  import opened RegionTick

  /** The shard can take an agent that was asked for in `term`. */
  predicate MayTake(shards: Shards, id: ShardId, term: nat) {
    id in shards && shards[id].raft.role == Leader && shards[id].raft.currentTerm == term
  }

  /** The fence: a yes means that this node leads the shard in the very term that was asked for,
      and a request that was meant for another leader, term or place changes nothing. */
  lemma FencedByTerm(shards: Shards, id: ShardId, term: nat, agent: Agent, waits: Waits)
    requires AllSane(shards)
    ensures var (after, answer) := HandOff(shards, id, term, agent, waits);
            && (answer == Accepted ==> MayTake(shards, id, term))
            && (!MayTake(shards, id, term) ==> after == shards)
            && (forall s | s in shards && s != id :: after[s] == shards[s])
  {}

  /** The asker is told why: no such shard, not the leader, or the term it is now. */
  lemma ToldWhy(shards: Shards, id: ShardId, term: nat, agent: Agent, waits: Waits)
    requires AllSane(shards) && !MayTake(shards, id, term)
    ensures HandOff(shards, id, term, agent, waits).1 ==
            Refused(if id !in shards then UnknownShard
                    else if shards[id].raft.role == Leader then StaleTerm(shards[id].raft.currentTerm)
                    else NotTheLeader)
  {}

  /** Whoever asks the right leader in its term gets a yes if the group stores the entry in time,
      and then the agent is listed for good, as it was sent. */
  lemma RightTermIsAccepted(shards: Shards, id: ShardId, term: nat, agent: Agent, waits: Waits, me: NodeId)
    requires AllSane(shards) && MayTake(shards, id, term) && Ours(shards[id], me)
    ensures var (after, answer) := HandOff(shards, id, term, agent, waits);
            && (waits == CALM ==> answer == Accepted)
            && (answer == Accepted ==> Sure(after, id, agent.id) && Meaning(after[id]) == Put(Meaning(shards[id]), agent))
  {
    AddMeans(shards[id], agent, waits, me);
    AddGood(shards[id], agent, waits, me);
  }

  /** The request as the source sends it: nobody is asked while the leader is unknown, and another
      node's answer is handed on without anything changing here. */
  lemma RequestIsAnswered(shards: Shards, site: Site, agent: Agent, dest: ShardId, waits: Waits)
    requires AllOurs(shards, site) && dest in shards
    ensures var (after, answer) := RequestHandOff(shards, site, agent, dest, waits);
            var leader := shards[dest].raft.leaderId;
            && (answer == Refused(LeaderUnknown) <==> leader !in site.peers)
            && (leader != site.me ==> after == shards)
            && (leader != site.me && leader in site.peers ==> (answer == Accepted <==> agent.id in site.elsewhere))
            && (shards[dest].raft.role == Leader && waits == CALM ==> answer == Accepted)
  {
    if shards[dest].raft.role == Leader {
      RightTermIsAccepted(shards, dest, shards[dest].raft.currentTerm, agent, waits, site.me);
    }
  }

  /** A no leaves the registry that stood when the wait for the log was over: with no trace of the agent. */
  lemma RefusalLeavesRegistry(r: Replica, agent: Agent, waits: Waits, me: NodeId)
    requires Ours(r, me)
    ensures var (r1, ready) := WaitCaughtUp(r, waits.catchUp);
            var (r', ok) := AddAgent(r, agent, waits);
            !ok ==> r'.agents == r1.agents && (ready ==> r'.agents == Meaning(r))
  {
    WaitMeans(r, waits.catchUp, me);
  }

  /** A spawned agent: only the leader of the region it is in takes it, and a yes lists it there for good. */
  lemma SpawnIsPlaced(shards: Shards, site: Site, agent: Agent, waits: Waits)
    requires AllOurs(shards, site)
    ensures ShardOf(agent, site.grid) in shards
    ensures var id := ShardOf(agent, site.grid);
            var (after, ok) := Spawn(shards, site.grid, agent, waits);
            && (ok ==> shards[id].raft.role == Leader && Sure(after, id, agent.id) && Meaning(after[id]) == Put(Meaning(shards[id]), agent))
            && (shards[id].raft.role == Leader && waits == CALM ==> ok)
            && (shards[id].raft.role != Leader ==> after == shards)
            && (forall s | s in shards && s != id :: after[s] == shards[s])
  {
    var id := ShardOf(agent, site.grid);
    AddMeans(shards[id], agent, waits, site.me);
    AddGood(shards[id], agent, waits, site.me);
  }
}
