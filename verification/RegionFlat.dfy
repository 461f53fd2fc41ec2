/** When every group answers in time, sharding is invisible: a tick of all shards
    is a tick of one flat world, and where names are not unique it says exactly
    which agents survive. */
module RegionFlat {
  import opened World
  import opened RaftTypes
  import opened ShardSpec
  import opened RegionSpec
  import opened RegionTick

  /** Every wait ends with everything stored. */
  ghost predicate Calm(site: Site) {
    (forall d :: site.asking(d) == CALM) && (forall s :: site.relieving(s) == Stores)
  }

  /** Nothing fails on a node that leads all shards. */
  ghost predicate NoFaults(shards: Shards, site: Site) {
    Calm(site) && forall s | s in shards :: Moves(shards[s])
  }

  // ---------- a tick on what the shards mean ----------

  /** How agents move and where they belong. */
  datatype Motion = Motion(move: Agent -> Agent, home: Agent -> ShardId)

  function MotionOf(grid: Grid): Motion
    requires ValidGrid(grid)
  {
    Motion(a => StepAgent(a, DT, grid), a => ShardOf(a, grid))
  }

  ghost predicate KeepsIds(g: Motion) {
    forall a :: g.move(a).id == a.id
  }

  function MoveEach(agents: Agents, g: Motion): Agents {
    map a | a in agents :: g.move(agents[a])
  }

  lemma MovesByGrid(agents: Agents, grid: Grid)
    requires ValidGrid(grid)
    ensures MoveEach(agents, MotionOf(grid)) == StepAll(agents, grid)
  {}

  function MovePlaces(m: Places, g: Motion): Places {
    map s | s in m :: MoveEach(m[s], g)
  }

  function PutAll(m: Places, ds: seq<Departure>): (m': Places)
    ensures m'.Keys == m.Keys
  {
    if ds == [] then m
    else
      var d, m1 := ds[|ds| - 1], PutAll(m, ds[..|ds| - 1]);
      if d.dest in m1 then m1[d.dest := Put(m1[d.dest], d.agent)] else m1
  }

  function NoteAll(ds: seq<Departure>): Handed {
    if ds == [] then map[] else Note(NoteAll(ds[..|ds| - 1]), ds[|ds| - 1].src, ds[|ds| - 1].agent.id)
  }

  function DropAll(m: Places, handed: Handed): Places {
    map s | s in m :: if s in handed then Drop(m[s], handed[s]) else m[s]
  }

  function TickPlaces(m: Places, g: Motion, ds: seq<Departure>): Places {
    DropAll(PutAll(MovePlaces(m, g), ds), NoteAll(ds))
  }

  /** A listed agent whose region, after its step, is not the one that lists it. */
  predicate Crosses(m: Places, g: Motion, d: Departure)
  {
    && Lists(m, d.src, d.id) && d.agent == g.move(m[d.src][d.id])
    && d.dest == g.home(d.agent) && d.dest != d.src
  }

  lemma {:induction false} RequestsMean(shards: Shards, site: Site, ds: seq<Departure>)
    requires AllOurs(shards, site) && AllLead(shards) && Calm(site) && forall d | d in ds :: d.dest in shards
    ensures var (after, handed) := HandOffAll(shards, site, ds);
            AllOurs(after, site) && AllLead(after) && Meanings(after) == PutAll(Meanings(shards), ds) && handed == NoteAll(ds)
  {
    if ds != [] {
      var front, d := ds[..|ds| - 1], ds[|ds| - 1];
      assert d in ds;
      RequestsMean(shards, site, front);
      RequestMeans(HandOffAll(shards, site, front).0, site, d.agent, d.dest, site.asking(d));
    }
  }

  lemma DroppedEverywhere(m: Places, m': Places, handed: Handed)
    requires m'.Keys == m.Keys
    requires forall s | s in m :: m'[s] == if s in handed then Drop(m[s], handed[s]) else m[s]
    ensures m' == DropAll(m, handed)
  {}

  lemma RemovedMeans(shards: Shards, handed: Handed, site: Site)
    requires AllOurs(shards, site) && AllLead(shards) && Calm(site)
    ensures var after := RemoveAll(shards, handed, site.relieving);
            AllOurs(after, site) && AllLead(after) && Meanings(after) == DropAll(Meanings(shards), handed)
  {
    RemoveAllMeans(shards, handed, site);
    DroppedEverywhere(Meanings(shards), Meanings(RemoveAll(shards, handed, site.relieving)), handed);
  }

  lemma DeparturesMean(shards: Shards, site: Site, d: Departure)
    requires AllOurs(shards, site) && NoFaults(shards, site)
    ensures Departs(shards, site.grid, d) <==> Crosses(Meanings(shards), MotionOf(site.grid), d)
  {
    if d.src in shards {
      MoveMeans(shards[d.src], site.grid, site.me);
    }
  }

  lemma MovedMeans(shards: Shards, site: Site)
    requires AllOurs(shards, site) && NoFaults(shards, site)
    ensures AllOurs(MoveAll(shards, site.grid), site) && AllLead(MoveAll(shards, site.grid))
    ensures Meanings(MoveAll(shards, site.grid)) == MovePlaces(Meanings(shards), MotionOf(site.grid))
  {
    MoveAllMeans(shards, site);
    forall s | s in shards
      ensures MovePlace(shards[s], site.grid) == MoveEach(Meaning(shards[s]), MotionOf(site.grid))
    {
      MovesByGrid(Meaning(shards[s]), site.grid);
    }
  }

  /** All that logs, waits and answers come to when nothing fails. */
  lemma TickMeans(shards: Shards, site: Site, ds: seq<Departure>)
    requires AllOurs(shards, site) && NoFaults(shards, site) && AreDepartures(shards, site.grid, ds)
    ensures forall d | d in ds :: d.dest in shards
    ensures forall d :: d in ds <==> Crosses(Meanings(shards), MotionOf(site.grid), d)
    ensures var after := Tick(shards, site, ds);
            AllOurs(after, site) && AllLead(after) && Meanings(after) == TickPlaces(Meanings(shards), MotionOf(site.grid), ds)
  {
    forall d ensures Departs(shards, site.grid, d) <==> Crosses(Meanings(shards), MotionOf(site.grid), d) {
      DeparturesMean(shards, site, d);
    }
    var moved := MoveAll(shards, site.grid);
    MovedMeans(shards, site);
    RequestsMean(moved, site, ds);
    RemovedMeans(HandOffAll(moved, site, ds).0, NoteAll(ds), site);
  }

  // ---------- who is where after a tick ----------

  /** Where the copy of `id` that shard `s` lists is after the tick. */
  function Home(m: Places, g: Motion, s: ShardId, id: AgentId): ShardId
    requires Lists(m, s, id)
  {
    g.home(g.move(m[s][id]))
  }

  ghost predicate Sent(ds: seq<Departure>, s: ShardId, id: AgentId) {
    exists d :: d in ds && d.dest == s && d.agent.id == id
  }

  ghost predicate SentAs(ds: seq<Departure>, s: ShardId, agent: Agent) {
    exists d :: d in ds && d.dest == s && d.agent == agent
  }

  ghost predicate Left(ds: seq<Departure>, s: ShardId, id: AgentId) {
    exists d :: d in ds && d.src == s && d.agent.id == id
  }

  lemma {:induction false} PutAllAt(m: Places, ds: seq<Departure>, s: ShardId, id: AgentId)
    requires s in m
    ensures var m' := PutAll(m, ds);
            && (id in m'[s] <==> id in m[s] || Sent(ds, s, id))
            && (id in m'[s] ==> if Sent(ds, s, id) then SentAs(ds, s, m'[s][id]) && m'[s][id].id == id else m'[s][id] == m[s][id])
  {
    if ds != [] {
      var front, d := ds[..|ds| - 1], ds[|ds| - 1];
      PutAllAt(m, front, s, id);
      assert forall e :: e in ds <==> e in front || e == d;
    }
  }

  lemma {:induction false} NoteAllAt(ds: seq<Departure>, s: ShardId, id: AgentId)
    ensures s in NoteAll(ds) && id in NoteAll(ds)[s] <==> Left(ds, s, id)
  {
    if ds != [] {
      var front, d := ds[..|ds| - 1], ds[|ds| - 1];
      NoteAllAt(front, s, id);
      assert forall e :: e in ds <==> e in front || e == d;
    }
  }

  /** An agent called `id` comes to `s` from another shard. */
  ghost predicate Arrives(m: Places, g: Motion, s: ShardId, id: AgentId)
  {
    exists src :: src != s && Lists(m, src, id) && Home(m, g, src, id) == s
  }

  /** `agent` is the moved copy of `id` that some shard listed, and is in `s` now. */
  ghost predicate CameFrom(m: Places, g: Motion, s: ShardId, id: AgentId, agent: Agent)
  {
    exists src :: Lists(m, src, id) && Home(m, g, src, id) == s && agent == g.move(m[src][id])
  }

  lemma SentIsArrives(m: Places, g: Motion, ds: seq<Departure>, s: ShardId, id: AgentId)
    requires KeepsIds(g) && AllKeyed(m) && forall d :: d in ds <==> Crosses(m, g, d)
    ensures Sent(ds, s, id) <==> Arrives(m, g, s, id)
    ensures Left(ds, s, id) <==> Lists(m, s, id) && Home(m, g, s, id) != s
  {
    if Arrives(m, g, s, id) {
      var src :| src != s && Lists(m, src, id) && Home(m, g, src, id) == s;
      var d := Departure(src, id, g.move(m[src][id]), s);
      assert d in ds;
    }
    if Lists(m, s, id) && Home(m, g, s, id) != s {
      var d := Departure(s, id, g.move(m[s][id]), Home(m, g, s, id));
      assert d in ds;
    }
  }

  /** Who has `id` after the tick: a shard that listed it, exactly if its own copy
      stays, whatever arrives; any other shard, exactly if a copy arrives. */
  ghost predicate Keeps(m: Places, g: Motion, s: ShardId, id: AgentId)
  {
    if Lists(m, s, id) then Home(m, g, s, id) == s else Arrives(m, g, s, id)
  }

  lemma PlacedAt(m: Places, g: Motion, ds: seq<Departure>, s: ShardId, id: AgentId)
    requires KeepsIds(g) && AllKeyed(m) && s in m && forall d :: d in ds <==> Crosses(m, g, d)
    ensures var m' := TickPlaces(m, g, ds);
            && (Lists(m', s, id) <==> Keeps(m, g, s, id))
            && (Lists(m', s, id) ==> CameFrom(m, g, s, id, m'[s][id]))
  {
    PutAllAt(MovePlaces(m, g), ds, s, id);
    NoteAllAt(ds, s, id);
    SentIsArrives(m, g, ds, s, id);
    var agents := PutAll(MovePlaces(m, g), ds)[s];
    if Lists(TickPlaces(m, g, ds), s, id) && Sent(ds, s, id) {
      var d :| d in ds && d.dest == s && d.agent == agents[id];
      assert Lists(m, d.src, d.id) && Home(m, g, d.src, d.id) == s;
    }
  }

  /** The registry of every shard after the tick, agent by agent. */
  ghost predicate Placed(m: Places, m': Places, g: Motion)
  {
    && m'.Keys == m.Keys
    && (forall s, id :: s in m ==> (Lists(m', s, id) <==> Keeps(m, g, s, id)))
    && (forall s, id | Lists(m', s, id) :: CameFrom(m, g, s, id, m'[s][id]))
  }

  lemma AllPlaced(m: Places, g: Motion, ds: seq<Departure>)
    requires KeepsIds(g) && AllKeyed(m) && forall d :: d in ds <==> Crosses(m, g, d)
    ensures Placed(m, TickPlaces(m, g, ds), g)
  {
    forall s, id | s in m
      ensures Lists(TickPlaces(m, g, ds), s, id) <==> Keeps(m, g, s, id)
      ensures Lists(TickPlaces(m, g, ds), s, id) ==> CameFrom(m, g, s, id, TickPlaces(m, g, ds)[s][id])
    {
      PlacedAt(m, g, ds, s, id);
    }
  }

  /** The complete account of a tick without faults, even if names are not unique. */
  lemma TickPlacesAgents(shards: Shards, site: Site, ds: seq<Departure>, s: ShardId, id: AgentId)
    requires AllOurs(shards, site) && NoFaults(shards, site) && AllKeyed(Meanings(shards))
    requires AreDepartures(shards, site.grid, ds) && s in shards
    ensures forall d | d in ds :: d.dest in shards
    ensures var m, m' := Meanings(shards), Meanings(Tick(shards, site, ds));
            && (Lists(m', s, id) <==> Keeps(m, MotionOf(site.grid), s, id))
            && (Lists(m', s, id) ==> CameFrom(m, MotionOf(site.grid), s, id, m'[s][id]))
  {
    TickMeans(shards, site, ds);
    PlacedAt(Meanings(shards), MotionOf(site.grid), ds, s, id);
  }

  lemma SurvivesOn(m: Places, m': Places, g: Motion, id: AgentId)
    requires Placed(m, m', g) && forall s | Lists(m, s, id) :: Home(m, g, s, id) in m
    ensures (exists t :: Lists(m', t, id)) <==>
            (exists s :: Lists(m, s, id) && (Home(m, g, s, id) == s || !Lists(m, Home(m, g, s, id), id)))
  {
    if t :| Lists(m', t, id) {
      assert Keeps(m, g, t, id);
      if !Lists(m, t, id) {
        var src :| src != t && Lists(m, src, id) && Home(m, g, src, id) == t;
      }
    }
    if s :| Lists(m, s, id) && (Home(m, g, s, id) == s || !Lists(m, Home(m, g, s, id), id)) {
      assert Keeps(m, g, Home(m, g, s, id), id);
    }
  }

  /** Without faults a name survives the tick exactly if some copy stays in its
      shard or moves to one that did not list the name. */
  lemma SurvivesExactlyWhen(shards: Shards, site: Site, ds: seq<Departure>, id: AgentId)
    requires AllOurs(shards, site) && NoFaults(shards, site) && AllKeyed(Meanings(shards))
    requires AreDepartures(shards, site.grid, ds)
    ensures forall d | d in ds :: d.dest in shards
    ensures var m, m', g := Meanings(shards), Meanings(Tick(shards, site, ds)), MotionOf(site.grid);
            (exists t :: Lists(m', t, id)) <==>
            (exists s :: Lists(m, s, id) && (Home(m, g, s, id) == s || !Lists(m, Home(m, g, s, id), id)))
  {
    TickMeans(shards, site, ds);
    var m, g := Meanings(shards), MotionOf(site.grid);
    AllPlaced(m, g, ds);
    SurvivesOn(m, TickPlaces(m, g, ds), g, id);
  }

  // ---------- the flat world ----------

  function Ids(m: Places): set<AgentId> {
    set s, id | s in m && id in m[s] :: id
  }

  /** All agents in one registry. */
  ghost function Flat(m: Places): Agents {
    map id | id in Ids(m) :: var s :| Lists(m, s, id); m[s][id]
  }

  lemma FlatHas(m: Places, s: ShardId, id: AgentId)
    requires UniqueIds(m) && Lists(m, s, id)
    ensures id in Flat(m) && Flat(m)[id] == m[s][id]
  {}

  /** Every agent is in the shard whose region it is in. */
  ghost predicate AllAtHome(m: Places, g: Motion)
  {
    forall s, id | Lists(m, s, id) :: g.home(m[s][id]) == s
  }

  lemma PlacedIsUnique(m: Places, m': Places, g: Motion)
    requires KeepsIds(g) && AllKeyed(m) && UniqueIds(m) && Placed(m, m', g)
    ensures AllKeyed(m') && UniqueIds(m') && AllAtHome(m', g)
  {
    forall s, id | Lists(m', s, id)
      ensures m'[s][id].id == id && g.home(m'[s][id]) == s
    {
      assert CameFrom(m, g, s, id, m'[s][id]);
    }
    forall s, t, id | Lists(m', s, id) && Lists(m', t, id)
      ensures s == t
    {
      assert CameFrom(m, g, s, id, m'[s][id]) && CameFrom(m, g, t, id, m'[t][id]);
    }
  }

  lemma FlatSteps(m: Places, m': Places, g: Motion, id: AgentId)
    requires UniqueIds(m) && UniqueIds(m') && Placed(m, m', g)
    requires forall s, i | Lists(m, s, i) :: Home(m, g, s, i) in m
    ensures id in Flat(m') <==> id in Flat(m)
    ensures id in Flat(m') ==> Flat(m')[id] == g.move(Flat(m)[id])
  {
    if id in Flat(m') {
      var s :| Lists(m', s, id);
      FlatHas(m', s, id);
      var src :| Lists(m, src, id) && Home(m, g, src, id) == s && m'[s][id] == g.move(m[src][id]);
      FlatHas(m, src, id);
    }
    if id in Flat(m) {
      var src :| Lists(m, src, id);
      var s := Home(m, g, src, id);
      assert Keeps(m, g, s, id);
      FlatHas(m', s, id);
    }
  }

  lemma FlatOn(m: Places, m': Places, g: Motion)
    requires KeepsIds(g) && AllKeyed(m) && UniqueIds(m) && Placed(m, m', g)
    requires forall s, i | Lists(m, s, i) :: Home(m, g, s, i) in m
    ensures AllKeyed(m') && UniqueIds(m') && AllAtHome(m', g)
    ensures Flat(m') == MoveEach(Flat(m), g)
  {
    PlacedIsUnique(m, m', g);
    forall id
      ensures id in Flat(m') <==> id in Flat(m)
      ensures id in Flat(m') ==> Flat(m')[id] == g.move(Flat(m)[id])
    {
      FlatSteps(m, m', g, id);
    }
  }

  /** One tick of all shards is one tick of the flat world: every agent moves
      exactly once, stays unique, and ends up in its own region, wherever it
      was listed before. */
  lemma TickIsFlat(shards: Shards, site: Site, ds: seq<Departure>)
    requires AllOurs(shards, site) && NoFaults(shards, site) && AreDepartures(shards, site.grid, ds)
    requires AllKeyed(Meanings(shards)) && UniqueIds(Meanings(shards))
    ensures forall d | d in ds :: d.dest in shards
    ensures var after := Tick(shards, site, ds);
            var m, m' := Meanings(shards), Meanings(after);
            && AllOurs(after, site) && AllLead(after) && AllKeyed(m') && UniqueIds(m') && AllAtHome(m', MotionOf(site.grid))
            && Flat(m') == StepAll(Flat(m), site.grid)
  {
    TickMeans(shards, site, ds);
    var m, g := Meanings(shards), MotionOf(site.grid);
    AllPlaced(m, g, ds);
    FlatOn(m, TickPlaces(m, g, ds), g);
    MovesByGrid(Flat(m), site.grid);
  }
}
