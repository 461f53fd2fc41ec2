/** Many ticks in a row: the sharded world, where nothing fails, is the flat
    world run for as long, down to where each agent is. And two shards that list
    the same name can lose it, even when nothing fails. */
module RegionRuns {
  import opened World
  import opened RaftTypes
  import opened ShardSpec
  import opened RegionSpec
  import opened RegionTick
  import opened RegionFlat
  import opened TwoShards

  /** Between ticks every group stores and applies what it was given. */
  function SettleAll(shards: Shards): (r: Shards)
    requires AllSane(shards)
    ensures AllSane(r) && r.Keys == shards.Keys
  {
    map s | s in shards :: Settle(shards[s])
  }

  lemma SettledOne(r: Replica, me: NodeId)
    requires Ours(r, me) && r.raft.role == Leader
    ensures Ours(Settle(r), me) && Moves(Settle(r)) && Meaning(Settle(r)) == Meaning(r)
  {
    ProgressMeans(r, |r.raft.log| - 1, me);
  }

  lemma Settled(shards: Shards, site: Site)
    requires AllOurs(shards, site) && AllLead(shards) && Calm(site)
    ensures AllOurs(SettleAll(shards), site) && NoFaults(SettleAll(shards), site)
    ensures Meanings(SettleAll(shards)) == Meanings(shards)
  {
    forall s | s in shards
      ensures Ours(Settle(shards[s]), site.me) && Moves(Settle(shards[s]))
      ensures Meaning(Settle(shards[s])) == Meaning(shards[s])
    {
      SettledOne(shards[s], site.me);
    }
  }

  ghost predicate TickFrom(shards: Shards, shards': Shards, site: Site)
    requires AllSane(shards) && ValidGrid(site.grid)
  {
    exists ds: seq<Departure> :: AreDepartures(shards, site.grid, ds) && (forall d | d in ds :: d.dest in shards)
                 && shards' == Tick(shards, site, ds)
  }

  ghost predicate TickAt(run: seq<Shards>, site: Site, k: nat)
    requires k + 1 < |run|
  {
    && ValidGrid(site.grid) && AllSane(run[k])
    && TickFrom(SettleAll(run[k]), run[k + 1], site)
  }

  ghost predicate Ticks(run: seq<Shards>, site: Site) {
    forall k: nat {:trigger TickAt(run, site, k)} | k + 1 < |run| :: TickAt(run, site, k)
  }

  /** A node that leads all shards and starts with uniquely named agents ticks again and again. */
  ghost predicate TickRun(run: seq<Shards>, site: Site) {
    && |run| > 0
    && AllOurs(run[0], site) && AllLead(run[0]) && Calm(site)
    && AllKeyed(Meanings(run[0])) && UniqueIds(Meanings(run[0]))
    && Ticks(run, site)
  }

  function StepMany(agents: Agents, grid: Grid, n: nat): Agents {
    if n == 0 then agents else StepAll(StepMany(agents, grid, n - 1), grid)
  }

  ghost predicate InStep(shards: Shards, site: Site, flat: Agents) {
    && AllOurs(shards, site) && AllLead(shards) && Calm(site)
    && AllKeyed(Meanings(shards)) && UniqueIds(Meanings(shards))
    && Flat(Meanings(shards)) == flat
  }

  lemma StaysInStep(shards: Shards, shards': Shards, site: Site, flat: Agents)
    requires InStep(shards, site, flat) && TickFrom(SettleAll(shards), shards', site)
    ensures InStep(shards', site, StepAll(flat, site.grid)) && AllAtHome(Meanings(shards'), MotionOf(site.grid))
  {
    Settled(shards, site);
    var now := SettleAll(shards);
    var ds: seq<Departure> :| AreDepartures(now, site.grid, ds) && (forall d | d in ds :: d.dest in now) && shards' == Tick(now, site, ds);
    TickIsFlat(now, site, ds);
  }

  /** In step with the flat world after `k` ticks; the run may have ended. */
  ghost predicate InStepAt(run: seq<Shards>, site: Site, flat: Agents, k: nat) {
    k < |run| ==> InStep(run[k], site, StepMany(flat, site.grid, k))
                  && (k > 0 ==> AllAtHome(Meanings(run[k]), MotionOf(site.grid)))
  }

  lemma OneTick(run: seq<Shards>, site: Site, flat: Agents, k: nat)
    requires k + 1 < |run| && TickAt(run, site, k) && InStep(run[k], site, flat)
    ensures InStep(run[k + 1], site, StepAll(flat, site.grid)) && AllAtHome(Meanings(run[k + 1]), MotionOf(site.grid))
  {
    StaysInStep(run[k], run[k + 1], site, flat);
  }

  lemma NextInStep(run: seq<Shards>, site: Site, flat: Agents, k: nat)
    requires Ticks(run, site) && InStepAt(run, site, flat, k)
    ensures InStepAt(run, site, flat, k + 1)
  {
    if k + 1 < |run| {
      assert TickAt(run, site, k);
      OneTick(run, site, StepMany(flat, site.grid, k), k);
    }
  }

  lemma Starts(run: seq<Shards>, site: Site)
    requires TickRun(run, site)
    ensures InStep(run[0], site, Flat(Meanings(run[0])))
  {}

  lemma {:induction false} Forever(p: nat -> bool, k: nat)
    requires p(0) && forall j: nat | p(j) :: p(j + 1)
    ensures p(k)
  {
    if k > 0 {
      Forever(p, k - 1);
    }
  }

  /** After `k` ticks the shards together are the flat world after `k` ticks. */
  lemma TicksInStep(run: seq<Shards>, site: Site, k: nat, flat: Agents)
    requires k < |run| && InStep(run[0], site, flat) && Ticks(run, site)
    ensures InStep(run[k], site, StepMany(flat, site.grid, k))
    ensures k > 0 ==> AllAtHome(Meanings(run[k]), MotionOf(site.grid))
  {
    var p := (j: nat) => InStepAt(run, site, flat, j);
    forall j: nat | p(j) ensures p(j + 1) {
      NextInStep(run, site, flat, j);
    }
    Forever(p, k);
    assert InStepAt(run, site, flat, k);
  }

  lemma {:induction false} StepManyMoves(agents: Agents, grid: Grid, n: nat, id: AgentId)
    requires id in agents
    ensures StepMany(agents, grid, n).Keys == agents.Keys
    ensures var a, a' := agents[id], StepMany(agents, grid, n)[id];
            && (a'.x, a'.vx) == MoveMany(a.x, a.vx, DT, grid.width, n)
            && (a'.y, a'.vy) == MoveMany(a.y, a.vy, DT, grid.height, n)
  {
    if n > 0 {
      StepManyMoves(agents, grid, n - 1, id);
    }
  }

  /** An agent that is inside the world and crosses it in no less than one tick. */
  predicate Tame(a: Agent, grid: Grid) {
    && 0.0 <= a.x <= grid.width && -grid.width <= a.vx * DT <= grid.width
    && 0.0 <= a.y <= grid.height && -grid.height <= a.vy * DT <= grid.height
  }

  /** Where two triangle waves put the agent after `k` ticks. */
  predicate OnWaves(a: Agent, a0: Agent, grid: Grid, k: nat)
    requires ValidGrid(grid)
  {
    && a.x == Triangle(Unwalled(a0.x, a0.vx, 1.0, k), grid.width)
    && a.y == Triangle(Unwalled(a0.y, a0.vy, 1.0, k), grid.height)
  }

  lemma RidesWaves(flat: Agents, grid: Grid, k: nat, id: AgentId)
    requires ValidGrid(grid) && id in flat && Tame(flat[id], grid)
    ensures var moved := StepMany(flat, grid, k); id in moved && OnWaves(moved[id], flat[id], grid, k)
  {
    var a0: Agent := flat[id];
    StepManyMoves(flat, grid, k, id);
    MotionClosedForm(a0.x, a0.vx, DT, grid.width, k);
    MotionClosedForm(a0.y, a0.vy, DT, grid.height, k);
  }

  lemma FoundInStep(shards: Shards, site: Site, flat: Agents, id: AgentId) returns (s: ShardId)
    requires InStep(shards, site, flat) && id in flat
    ensures Lists(Meanings(shards), s, id) && Meanings(shards)[s][id] == flat[id]
  {
    var m := Meanings(shards);
    s :| Lists(m, s, id);
    FlatHas(m, s, id);
  }

  /** After any number of ticks, shards, logs and hand-offs notwithstanding, an agent
      is where two triangle waves say, and is listed by the shard of that place only. */
  lemma WhereAnAgentIs(run: seq<Shards>, site: Site, k: nat, s0: ShardId, id: AgentId, a0: Agent)
    returns (s: ShardId, a: Agent)
    requires TickRun(run, site) && 0 < k < |run|
    requires Lists(Meanings(run[0]), s0, id) && Meanings(run[0])[s0][id] == a0 && Tame(a0, site.grid)
    ensures OnWaves(a, a0, site.grid, k) && s == ShardOf(a, site.grid)
    ensures AllSane(run[k]) && Lists(Meanings(run[k]), s, id) && Meanings(run[k])[s][id] == a
    ensures forall t | Lists(Meanings(run[k]), t, id) :: t == s
  {
    var flat := Flat(Meanings(run[0]));
    Starts(run, site);
    FlatHas(Meanings(run[0]), s0, id);
    TicksInStep(run, site, k, flat);
    var now := StepMany(flat, site.grid, k);
    RidesWaves(flat, site.grid, k, id);
    s := FoundInStep(run[k], site, now, id);
    a := now[id];
    HomeOfListed(Meanings(run[k]), site.grid, s, id);
  }

  lemma HomeOfListed(m: Places, grid: Grid, s: ShardId, id: AgentId)
    requires ValidGrid(grid) && AllAtHome(m, MotionOf(grid)) && Lists(m, s, id)
    ensures ShardOf(m[s][id], grid) == s
  {}

  // ---------- two shards, one name ----------

  const GOES_EAST: Agent := Agent("x", 0.5, 0.5, 1.0, 0.0)
  const GOES_WEST: Agent := Agent("x", 1.5, 0.5, -1.0, 0.0)

  /** A leader of term 1 that has added one agent since its no-op. */
  function Holding(agent: Agent): Replica {
    var agents := map[agent.id := agent];
    var noOp, added := Entry(1, 1, NoOp), Entry(1, 2, Snapshot(agents));
    Replica(NodeState("n", ["p"], 1, "n", [SENTINEL, noOp, added], Leader, "n", 2, 2,
                      map["p" := 3], map["p" := 2], 2, false, [noOp, added], true),
            agents)
  }

  lemma HoldingMeans(agent: Agent)
    ensures Ours(Holding(agent), "n") && Moves(Holding(agent)) && Meaning(Holding(agent)) == map[agent.id := agent]
  {}

  const BOTH: Shards := map[WEST := Holding(GOES_EAST), EAST := Holding(GOES_WEST)]
  const HERE: Site := Site("n", {"n"}, TWO, d => CALM, s => Stores, {})
  const CROSSING: seq<Departure> := [Departure(WEST, "x", StepAgent(GOES_EAST, DT, TWO), EAST),
                                     Departure(EAST, "x", StepAgent(GOES_WEST, DT, TWO), WEST)]

  lemma BothOurs()
    ensures AllOurs(BOTH, HERE)
  {
    HoldingMeans(GOES_EAST);
    HoldingMeans(GOES_WEST);
    forall x, y ensures ShardIdFor(x, y, TWO) in BOTH { Places2(x, y); }
  }

  lemma BothMove()
    ensures NoFaults(BOTH, HERE)
  {
    HoldingMeans(GOES_EAST);
    HoldingMeans(GOES_WEST);
  }

  lemma MeaningsOfTwo(s: ShardId, r: Replica, t: ShardId, q: Replica)
    requires s != t && Sane(r) && Sane(q)
    ensures AllSane(map[s := r, t := q])
    ensures Meanings(map[s := r, t := q]) == map[s := Meaning(r), t := Meaning(q)]
  {}

  lemma BothMean()
    ensures AllSane(BOTH)
    ensures Meanings(BOTH) == map[WEST := map["x" := GOES_EAST], EAST := map["x" := GOES_WEST]]
  {
    HoldingMeans(GOES_EAST);
    HoldingMeans(GOES_WEST);
    MeaningsOfTwo(WEST, Holding(GOES_EAST), EAST, Holding(GOES_WEST));
  }

  lemma BothCross()
    ensures ShardOf(StepAgent(GOES_EAST, DT, TWO), TWO) == EAST && ShardOf(StepAgent(GOES_WEST, DT, TWO), TWO) == WEST
  {
    var east, west := StepAgent(GOES_EAST, DT, TWO), StepAgent(GOES_WEST, DT, TWO);
    Places2(east.x, east.y);
    Places2(west.x, west.y);
  }

  lemma CrossingIsAll()
    ensures AreDepartures(BOTH, TWO, CROSSING)
  {
    HoldingMeans(GOES_EAST);
    HoldingMeans(GOES_WEST);
    BothCross();
    forall d ensures d in CROSSING <==> Departs(BOTH, TWO, d) {}
  }

  lemma NoneStays()
    ensures AllSane(BOTH)
    ensures var m, g := Meanings(BOTH), MotionOf(TWO);
            forall s | Lists(m, s, "x") :: Home(m, g, s, "x") != s && Lists(m, Home(m, g, s, "x"), "x")
  {
    BothMean();
    BothCross();
  }

  lemma BothListIt()
    ensures AllSane(BOTH) && AllKeyed(Meanings(BOTH))
    ensures Lists(Meanings(BOTH), WEST, "x") && Lists(Meanings(BOTH), EAST, "x")
  {
    BothMean();
  }

  lemma NobodyHasIt(shards: Shards, site: Site, ds: seq<Departure>, id: AgentId)
    requires AllOurs(shards, site) && NoFaults(shards, site) && AllKeyed(Meanings(shards))
    requires AreDepartures(shards, site.grid, ds)
    requires forall s | Lists(Meanings(shards), s, id) ::
               var home := Home(Meanings(shards), MotionOf(site.grid), s, id);
               home != s && Lists(Meanings(shards), home, id)
    ensures forall d | d in ds :: d.dest in shards
    ensures forall t :: !Lists(Meanings(Tick(shards, site, ds)), t, id)
  {
    SurvivesExactlyWhen(shards, site, ds, id);
  }

  /** The copies swap places; each shard takes the other's and then drops the name. */
  lemma SharedNameCanBeLost() returns (shards: Shards, site: Site, ds: seq<Departure>)
    ensures AllOurs(shards, site) && NoFaults(shards, site) && AllKeyed(Meanings(shards))
    ensures AreDepartures(shards, site.grid, ds) && forall d | d in ds :: d.dest in shards
    ensures Lists(Meanings(shards), WEST, "x") && Lists(Meanings(shards), EAST, "x")
    ensures forall t :: !Lists(Meanings(Tick(shards, site, ds)), t, "x")
  {
    shards, site, ds := BOTH, HERE, CROSSING;
    BothOurs();
    BothMove();
    BothListIt();
    CrossingIsAll();
    NoneStays();
    NobodyHasIt(shards, site, ds, "x");
  }
}
