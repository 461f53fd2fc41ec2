/** The region server as the program has it: loops over its shards and their
    agents, a list of departures, a table of hand-offs that worked. */
module Region {
  import opened World
  import opened RaftTypes
  import RS = RaftSpec
  import opened ShardSpec
  import opened Spec = RegionSpec

  predicate Leaves(id: ShardId, moved: Agents, grid: Grid, d: Departure)
    requires ValidGrid(grid)
  {
    && d.src == id && d.id in moved && d.agent == moved[d.id]
    && d.dest == ShardOf(d.agent, grid) && d.dest != id
  }

  /** What phase 1 has listed once the shards in `done` have moved. */
  ghost predicate DepartedFrom(shards: Shards, done: set<ShardId>, grid: Grid, ds: seq<Departure>)
    requires ValidGrid(grid)
  {
    (forall d :: d in ds <==> d.src in done && Departs(shards, grid, d)) && Once(ds)
  }

  /** The shards in `done` have moved. */
  ghost predicate MovedIn(before: Shards, after: Shards, done: set<ShardId>, grid: Grid)
    requires AllSane(before)
  {
    && after.Keys == before.Keys
    && forall s | s in before :: after[s] == if s in done then MoveShard(before[s], grid) else before[s]
  }

  lemma MovedAll(before: Shards, after: Shards, done: set<ShardId>, grid: Grid)
    requires AllSane(before) && MovedIn(before, after, done, grid) && before.Keys <= done
    ensures AllSane(after) && after == MoveAll(before, grid)
  {}

  lemma OneMoreMoved(before: Shards, after: Shards, done: set<ShardId>, id: ShardId, grid: Grid,
                     ds: seq<Departure>, leaving: seq<Departure>)
    requires ValidGrid(grid) && AllSane(before) && id in before && id !in done
    requires MovedIn(before, after, done, grid) && DepartedFrom(before, done, grid, ds)
    requires (forall d :: d in leaving <==> d.src == id && DepartsFrom(before[id], grid, d)) && Once(leaving)
    ensures MovedIn(before, after[id := MoveShard(before[id], grid)], done + {id}, grid)
    ensures DepartedFrom(before, done + {id}, grid, ds + leaving)
  {}

  class RegionServer {
    const site: Site
    /** The order in which the table of shards lists them. */
    const order: seq<ShardId>
    var shards: Shards

    ghost predicate Valid()
      reads this
    {
      && ValidGrid(site.grid)
      && (forall s :: s in shards <==> s in order)
      && (forall i, j | 0 <= i < j < |order| :: order[i] != order[j])
      && (forall x, y :: ShardIdFor(x, y, site.grid) in shards)
      && AllSane(shards)
    }

    constructor (site: Site, shards: Shards)
      requires ValidGrid(site.grid) && AllSane(shards)
      requires forall s :: s in shards <==> s in AllShardIds(site.grid)
      ensures Valid() && this.site == site && this.shards == shards
    {
      this.site, this.shards, order := site, shards, AllShardIds(site.grid);
      AllListed(site.grid);
    }

    // ---------- one replica ----------

    static method WaitApplied(r: Replica, index: nat, turn: Turn) returns (r': Replica, ok: bool)
      requires Sane(r) && index < |r.raft.log|
      ensures (r', ok) == Spec.WaitApplied(r, index, turn)
    {
      var term := r.raft.currentTerm;
      r', ok := r, false;
      if r'.raft.role == Leader {
        ok := r'.raft.lastApplied >= index;
        if !ok {
          r' := Pass(r', turn);
          ok := r'.raft.role == Leader && r'.raft.currentTerm == term && r'.raft.lastApplied >= index;
        }
      }
    }

    static method AddAgent(r: Replica, agent: Agent, waits: Waits) returns (r': Replica, ok: bool)
      requires Sane(r)
      ensures (r', ok) == Spec.AddAgent(r, agent, waits)
    {
      r', ok := WaitApplied(r, |r.raft.log| - 1, waits.catchUp);
      if !ok {
        return;
      }
      var before, index := r'.agents, |r'.raft.log|;
      var isLeader := r'.raft.role == Leader;
      var agents := before[agent.id := agent];
      r' := Replica(RS.Propose(r'.raft, Snapshot(agents)), agents);
      ok := false;
      if isLeader {
        r', ok := WaitApplied(r', index, waits.store);
      }
      if !ok {
        r' := r'.(agents := before);
      }
    }

    /** Moves the agents of one registry and lists those that are somewhere else now. */
    static method StepAgents(id: ShardId, agents: Agents, grid: Grid) returns (moved: Agents, ds: seq<Departure>)
      requires ValidGrid(grid)
      ensures moved == StepAll(agents, grid)
      ensures forall d :: d in ds <==> Leaves(id, moved, grid, d)
      ensures Once(ds)
    {
      moved, ds := agents, [];
      var todo := agents.Keys;
      while todo != {}
        invariant todo <= agents.Keys == moved.Keys
        invariant forall a | a in agents :: moved[a] == if a in todo then agents[a] else StepAgent(agents[a], DT, grid)
        invariant forall d :: d in ds <==> d.id !in todo && Leaves(id, moved, grid, d)
        invariant Once(ds)
        decreases |todo|
      {
        var a :| a in todo;
        todo := todo - {a};
        var agent := StepAgent(moved[a], DT, grid);
        moved := moved[a := agent];
        var home := ShardOf(agent, grid);
        if home != id {
          ds := ds + [Departure(id, a, agent, home)];
        }
      }
    }

    /** Phase 1 at one shard. */
    static method MoveReplica(id: ShardId, r: Replica, grid: Grid) returns (r': Replica, ds: seq<Departure>)
      requires ValidGrid(grid) && Sane(r)
      ensures r' == MoveShard(r, grid)
      ensures forall d :: d in ds <==> d.src == id && DepartsFrom(r, grid, d)
      ensures Once(ds)
    {
      r', ds := r, [];
      if r.raft.role == Leader && CaughtUp(r.raft) {
        var moved;
        moved, ds := StepAgents(id, r.agents, grid);
        r' := Replica(RS.Propose(r.raft, Snapshot(moved)), moved);
      }
    }

    /** The end of phase 2 at one shard. */
    static method RemoveAgents(r: Replica, ids: set<AgentId>, turn: Turn) returns (r': Replica)
      requires Sane(r)
      ensures r' == Spec.RemoveAgents(r, ids, turn)
    {
      var ready;
      r', ready := WaitApplied(r, |r.raft.log| - 1, turn);
      if ready {
        var agents := r'.agents;
        var todo := ids;
        while todo != {}
          invariant todo <= ids && agents == Drop(r'.agents, ids - todo)
          decreases |todo|
        {
          var a :| a in todo;
          todo := todo - {a};
          agents := agents - {a};
        }
        assert ids - todo == ids;
        r' := Replica(RS.Propose(r'.raft, Snapshot(agents)), agents);
      }
    }

    // ---------- all shards ----------

    /** Places a new agent in its shard if this node leads it. */
    method SpawnAgent(agent: Agent, waits: Waits) returns (ok: bool)
      requires Valid()
      modifies this`shards
      ensures Valid()
      ensures ShardOf(agent, site.grid) in old(shards)
      ensures (shards, ok) == Spec.Spawn(old(shards), site.grid, agent, waits)
    {
      var id := ShardIdFor(agent.x, agent.y, site.grid);
      ok := false;
      if shards[id].raft.role == Leader {
        var r;
        r, ok := AddAgent(shards[id], agent, waits);
        shards := shards[id := r];
      }
    }

    method HandOff(id: ShardId, term: nat, agent: Agent, waits: Waits) returns (answer: Answer)
      requires Valid()
      modifies this`shards
      ensures Valid() && (shards, answer) == Spec.HandOff(old(shards), id, term, agent, waits)
    {
      if id !in shards {
        return Refused(UnknownShard);
      }
      if shards[id].raft.role != Leader {
        return Refused(NotTheLeader);
      }
      if shards[id].raft.currentTerm != term {
        return Refused(StaleTerm(shards[id].raft.currentTerm));
      }
      var r, ok := AddAgent(shards[id], agent, waits);
      shards := shards[id := r];
      return if ok then Accepted else Refused(LostLeadership);
    }

    method RequestHandOff(agent: Agent, dest: ShardId, waits: Waits) returns (answer: Answer)
      requires Valid() && dest in shards
      modifies this`shards
      ensures Valid() && (shards, answer) == Spec.RequestHandOff(old(shards), site, agent, dest, waits)
    {
      var leader, term := shards[dest].raft.leaderId, shards[dest].raft.currentTerm;
      if leader !in site.peers {
        return Refused(LeaderUnknown);
      }
      if leader == site.me {
        answer := HandOff(dest, term, agent, waits);
      } else {
        answer := if agent.id in site.elsewhere then Accepted else Refused(NoAnswer);
      }
    }

    /** Phase 1. All shards move before any agent is handed over. */
    method MovePhase() returns (ds: seq<Departure>)
      requires Valid()
      modifies this`shards
      ensures Valid() && shards == MoveAll(old(shards), site.grid)
      ensures AreDepartures(old(shards), site.grid, ds)
    {
      ghost var before, done := shards, {};
      ds := [];
      var k := 0;
      while k < |order|
        invariant 0 <= k <= |order| && forall i | 0 <= i < |order| :: order[i] in done <==> i < k
        invariant MovedIn(before, shards, done, site.grid) && DepartedFrom(before, done, site.grid, ds)
      {
        var r, leaving := MoveReplica(order[k], shards[order[k]], site.grid);
        OneMoreMoved(before, shards, done, order[k], site.grid, ds, leaving);
        ds := ds + leaving;
        shards := shards[order[k] := r];
        done := done + {order[k]};
        k := k + 1;
      }
      assert forall s | s in before :: s in done;
      MovedAll(before, shards, done, site.grid);
    }

    /** Phase 2: ask for each, then remove at each source what was accepted. */
    method HandOffPhase(ds: seq<Departure>)
      requires Valid() && forall d | d in ds :: d.dest in shards
      modifies this`shards
      ensures Valid()
      ensures var (after, handed) := HandOffAll(old(shards), site, ds);
              shards == RemoveAll(after, handed, site.relieving)
    {
      ghost var before := shards;
      var handed: Handed := map[];
      var k := 0;
      while k < |ds|
        invariant 0 <= k <= |ds|
        invariant Valid() && shards.Keys == before.Keys
        invariant (shards, handed) == HandOffAll(before, site, ds[..k])
      {
        assert ds[..k + 1][..k] == ds[..k] && ds[k] in ds;
        var answer := RequestHandOff(ds[k].agent, ds[k].dest, site.asking(ds[k]));
        if answer == Accepted {
          handed := Note(handed, ds[k].src, ds[k].agent.id);
        }
        k := k + 1;
      }
      assert ds[..k] == ds;
      RemovePhase(handed);
    }

    method RemovePhase(handed: Handed)
      requires Valid()
      modifies this`shards
      ensures Valid() && shards == RemoveAll(old(shards), handed, site.relieving)
    {
      ghost var before := shards;
      var todo := handed.Keys;
      while todo != {}
        invariant todo <= handed.Keys && shards.Keys == before.Keys
        invariant forall s | s in shards :: shards[s] == if s in todo then before[s] else Relieved(before[s], handed, s, site.relieving(s))
        decreases |todo|
      {
        var s :| s in todo;
        todo := todo - {s};
        if s in shards {
          var r := RemoveAgents(shards[s], handed[s], site.relieving(s));
          shards := shards[s := r];
        }
      }
    }

    method Tick() returns (ghost ds: seq<Departure>)
      requires Valid()
      modifies this`shards
      ensures Valid() && AreDepartures(old(shards), site.grid, ds)
      ensures (forall d | d in ds :: d.dest in old(shards)) && shards == Spec.Tick(old(shards), site, ds)
    {
      var departures := MovePhase();
      ds := departures;
      HandOffPhase(departures);
    }
  }

  /** Every place belongs to a listed shard, and no shard is listed twice. */
  lemma AllListed(grid: Grid)
    requires ValidGrid(grid)
    ensures forall x, y :: ShardIdFor(x, y, grid) in AllShardIds(grid)
    ensures var ids := AllShardIds(grid); forall i, j | 0 <= i < j < |ids| :: ids[i] != ids[j]
  {
    forall x, y ensures ShardIdFor(x, y, grid) in AllShardIds(grid) {
      ShardExists(x, y, grid);
    }
    var ids := AllShardIds(grid);
    forall i, j | 0 <= i < j < |ids| ensures ids[i] != ids[j] {
      if ids[i] == ids[j] {
        ShardIdsDistinct(grid, i, j);
      }
    }
  }
}
