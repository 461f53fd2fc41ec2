/** One node that hosts a replica of every shard, over the span of a tick
    (src/dssd/sharding/region_server.py, src/dssd/sharding/handoff.py). Every wait
    of a coroutine has its own outcome: the group stores everything, or stalls
    somewhere in the log, or deposes this node. */
module RegionSpec {
  import opened World
  import opened RaftTypes
  import RS = RaftSpec
  import opened ShardSpec

  datatype Replica = Replica(raft: NodeState, agents: Agents)

  type Shards = map<ShardId, Replica>

  /** What happens to the replica while one of its coroutines waits: everything is
      stored and applied; entries up to an index are; some are and then the node learns
      of a newer term, and perhaps of its leader. */
  datatype Turn = Stores | Stalls(upTo: nat) | Deposes(upTo: nat, terms: nat, leader: NodeId)

  /** The two waits of `add_agent`. */
  datatype Waits = Waits(catchUp: Turn, store: Turn)

  const CALM: Waits := Waits(Stores, Stores)

  /** What a tick depends on and cannot change. `peers` are the nodes whose address is
      known, `asking` and `relieving` the outcomes of the waits at a destination and at a
      source, `elsewhere` the agents that another node accepts when asked. */
  datatype Site = Site(me: NodeId, peers: set<NodeId>, grid: Grid,
                       asking: Departure -> Waits, relieving: ShardId -> Turn, elsewhere: set<AgentId>)

  /** Lookups in the replica's log do not fail. */
  predicate Sane(r: Replica) {
    r.raft.lastApplied <= r.raft.commitIndex < |r.raft.log|
  }

  predicate AllSane(shards: Shards) {
    forall s | s in shards :: Sane(shards[s])
  }

  // ---------- waiting ----------

  /** Entries up to `upTo` are stored by a majority. If that is news, the applier wakes
      up and applies everything that is committed. */
  function Progress(r: Replica, upTo: nat): (r': Replica)
    requires Sane(r)
    ensures Sane(r') && r'.raft.log == r.raft.log && r'.raft.role == r.raft.role
    ensures r'.raft.currentTerm == r.raft.currentTerm && r'.raft.leaderId == r.raft.leaderId
    ensures r'.raft.lastApplied >= r.raft.lastApplied
  {
    if upTo <= r.raft.lastApplied then r
    else
      var log, hi := r.raft.log, Max(r.raft.commitIndex, RS.Min(upTo, |r.raft.log| - 1));
      Replica(RS.Apply(r.raft.(commitIndex := hi)), ApplyRange(r.agents, log, r.raft.lastApplied, hi))
  }

  function Max(a: nat, b: nat): nat {
    if a >= b then a else b
  }

  function Settle(r: Replica): (r': Replica)
    requires Sane(r)
    ensures Sane(r') && r'.raft.log == r.raft.log && r'.raft.role == r.raft.role && CaughtUp(r'.raft)
  {
    Progress(r, |r.raft.log| - 1)
  }

  /** The replica after a wait in which `turn` happens. */
  function Pass(r: Replica, turn: Turn): (r': Replica)
    requires Sane(r)
    ensures Sane(r') && r'.raft.log == r.raft.log
  {
    match turn
    case Stores => Settle(r)
    case Stalls(upTo) => Progress(r, upTo)
    case Deposes(upTo, terms, leader) =>
      var r1 := Progress(r, upTo);
      r1.(raft := RS.BecomeFollower(r1.raft, r1.raft.currentTerm + terms + 1).(leaderId := leader))
  }

  /** `_wait_applied`, from its first look to its last. */
  function WaitApplied(r: Replica, index: nat, turn: Turn): (a: (Replica, bool))
    requires Sane(r) && index < |r.raft.log|
    ensures Sane(a.0) && a.0.raft.log == r.raft.log
  {
    match PollApplied(r.raft, index, r.raft.currentTerm)
    case Deposed => (r, false)
    case Ready => (r, true)
    case Waiting => (Pass(r, turn), PollApplied(Pass(r, turn).raft, index, r.raft.currentTerm) == Ready)
  }

  function WaitCaughtUp(r: Replica, turn: Turn): (a: (Replica, bool))
    requires Sane(r)
    ensures Sane(a.0) && a.0.raft.log == r.raft.log
  {
    WaitApplied(r, |r.raft.log| - 1, turn)
  }

  // ---------- one shard ----------

  function SetAgents(r: Replica, agents: Agents): Replica {
    Replica(RS.Propose(r.raft, Snapshot(agents)), agents)
  }

  function AddAgent(r: Replica, agent: Agent, waits: Waits): (a: (Replica, bool))
    requires Sane(r)
    ensures Sane(a.0)
  {
    var (r1, ready) := WaitCaughtUp(r, waits.catchUp);
    if !ready then (r1, false)
    else
      var r2 := SetAgents(r1, Put(r1.agents, agent));
      if r1.raft.role != Leader then (r2.(agents := r1.agents), false)
      else
        var (r3, stored) := WaitApplied(r2, |r1.raft.log|, waits.store);
        if stored then (r3, true) else (r3.(agents := r1.agents), false)
  }

  predicate Moves(r: Replica) {
    r.raft.role == Leader && CaughtUp(r.raft)
  }

  /** Phase 1 at one shard. */
  function MoveShard(r: Replica, grid: Grid): (r': Replica)
    requires Sane(r)
    ensures Sane(r')
  {
    if Moves(r) then SetAgents(r, StepAll(r.agents, grid)) else r
  }

  /** The end of phase 2 at one shard that got `ids` off its hands. */
  function RemoveAgents(r: Replica, ids: set<AgentId>, turn: Turn): (r': Replica)
    requires Sane(r)
    ensures Sane(r')
  {
    var (r1, ready) := WaitCaughtUp(r, turn);
    if ready then SetAgents(r1, Drop(r1.agents, ids)) else r1
  }

  // ---------- handing one agent over ----------

  datatype Reason = UnknownShard | NotTheLeader | StaleTerm(current: nat) | LostLeadership | LeaderUnknown | NoAnswer

  datatype Answer = Accepted | Refused(reason: Reason)

  /** The service at the destination: only the leader of the very term that was
      asked for takes the agent, and says so only once the agent is stored. */
  function HandOff(shards: Shards, id: ShardId, term: nat, agent: Agent, waits: Waits): (a: (Shards, Answer))
    requires AllSane(shards)
    ensures AllSane(a.0) && a.0.Keys == shards.Keys
  {
    if id !in shards then (shards, Refused(UnknownShard))
    else if shards[id].raft.role != Leader then (shards, Refused(NotTheLeader))
    else if shards[id].raft.currentTerm != term then (shards, Refused(StaleTerm(shards[id].raft.currentTerm)))
    else var (r, ok) := AddAgent(shards[id], agent, waits);
         (shards[id := r], if ok then Accepted else Refused(LostLeadership))
  }

  /** The request at the source, which may end up at this very node. */
  function RequestHandOff(shards: Shards, site: Site, agent: Agent, dest: ShardId, waits: Waits): (a: (Shards, Answer))
    requires AllSane(shards) && dest in shards
    ensures AllSane(a.0) && a.0.Keys == shards.Keys
  {
    var leader := shards[dest].raft.leaderId;
    if leader !in site.peers then (shards, Refused(LeaderUnknown))
    else if leader == site.me then HandOff(shards, dest, shards[dest].raft.currentTerm, agent, waits)
    else (shards, if agent.id in site.elsewhere then Accepted else Refused(NoAnswer))
  }

  /** A new agent goes to the shard of its region, if this node leads it. */
  function Spawn(shards: Shards, grid: Grid, agent: Agent, waits: Waits): (a: (Shards, bool))
    requires ValidGrid(grid) && AllSane(shards) && ShardOf(agent, grid) in shards
    ensures AllSane(a.0) && a.0.Keys == shards.Keys
  {
    var id := ShardOf(agent, grid);
    if shards[id].raft.role != Leader then (shards, false)
    else var (r, ok) := AddAgent(shards[id], agent, waits); (shards[id := r], ok)
  }

  // ---------- a tick ----------

  /** `id` is the key under which the source lists the agent. */
  datatype Departure = Departure(src: ShardId, id: AgentId, agent: Agent, dest: ShardId)

  type Handed = map<ShardId, set<AgentId>>

  /** After moving, the agent is no longer in the shard that lists it. */
  predicate DepartsFrom(r: Replica, grid: Grid, d: Departure)
    requires ValidGrid(grid)
  {
    && Moves(r) && d.id in r.agents
    && d.agent == StepAgent(r.agents[d.id], DT, grid)
    && d.dest == ShardOf(d.agent, grid) && d.dest != d.src
  }

  predicate Departs(shards: Shards, grid: Grid, d: Departure)
    requires ValidGrid(grid)
  {
    d.src in shards && DepartsFrom(shards[d.src], grid, d)
  }

  ghost predicate Once(ds: seq<Departure>) {
    forall i, j | 0 <= i < j < |ds| :: ds[i] != ds[j]
  }

  /** All departures, once each, in whatever order the registries list their agents. */
  ghost predicate AreDepartures(shards: Shards, grid: Grid, ds: seq<Departure>)
    requires ValidGrid(grid)
  {
    (forall d :: d in ds <==> Departs(shards, grid, d)) && Once(ds)
  }

  function MoveAll(shards: Shards, grid: Grid): (moved: Shards)
    requires AllSane(shards)
    ensures AllSane(moved) && moved.Keys == shards.Keys
  {
    map s | s in shards :: MoveShard(shards[s], grid)
  }

  function Note(handed: Handed, src: ShardId, id: AgentId): Handed {
    handed[src := (if src in handed then handed[src] else {}) + {id}]
  }

  /** The requests of phase 2, one after the other. */
  function HandOffAll(shards: Shards, site: Site, ds: seq<Departure>): (a: (Shards, Handed))
    requires AllSane(shards) && forall d | d in ds :: d.dest in shards
    ensures AllSane(a.0) && a.0.Keys == shards.Keys
  {
    if ds == [] then (shards, map[])
    else
      var d := ds[|ds| - 1];
      var (shards1, handed) := HandOffAll(shards, site, ds[..|ds| - 1]);
      var (shards2, answer) := RequestHandOff(shards1, site, d.agent, d.dest, site.asking(d));
      (shards2, if answer == Accepted then Note(handed, d.src, d.agent.id) else handed)
  }

  function Relieved(r: Replica, handed: Handed, s: ShardId, turn: Turn): (r': Replica)
    requires Sane(r)
    ensures Sane(r')
  {
    if s in handed then RemoveAgents(r, handed[s], turn) else r
  }

  function RemoveAll(shards: Shards, handed: Handed, relieving: ShardId -> Turn): (after: Shards)
    requires AllSane(shards)
    ensures AllSane(after) && after.Keys == shards.Keys
  {
    map s | s in shards :: Relieved(shards[s], handed, s, relieving(s))
  }

  /** A whole tick that meets its departures in the order `ds`. */
  function Tick(shards: Shards, site: Site, ds: seq<Departure>): (after: Shards)
    requires AllSane(shards) && forall d | d in ds :: d.dest in shards
    ensures AllSane(after) && after.Keys == shards.Keys
  {
    var (after, handed) := HandOffAll(MoveAll(shards, site.grid), site, ds);
    RemoveAll(after, handed, site.relieving)
  }
}
