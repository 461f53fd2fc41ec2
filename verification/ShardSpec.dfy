/** One replica of a shard between two await points (src/dssd/sharding/shard_state.py):
    its registry of agents, and whichever task holds its lock. */
module ShardSpec {
  import opened World
  import opened RaftTypes
  import RS = RaftSpec

  /** Simulated time per tick. */
  const DT: real := 1.0

  /** Who holds the lock, and where it waits. A waiting task remembers the index
      it waits for and the term it must still be leading. */
  datatype Task =
    | Free
    | WaitToAdd(agent: Agent, index: nat, term: nat)
    | Adding(agent: Agent, before: Agents, index: nat, term: nat)
    | WaitToRemove(ids: set<AgentId>, index: nat, term: nat)

  /** `ticking` says that a tick has seen this replica lead and is waiting for the lock. */
  datatype Local = Local(agents: Agents, task: Task, ticking: bool)

  const FRESH: Local := Local(map[], Free, false)

  // ---------- the registry and the log ----------

  /** `_apply`: a snapshot replaces everything, a no-op changes nothing. */
  function ApplyEntry(agents: Agents, entry: Entry): Agents {
    match entry.command
    case NoOp => agents
    case Snapshot(m) => m
  }

  /** The registry after the entries behind `lo` up to `hi` were applied. */
  function ApplyRange(agents: Agents, log: Log, lo: nat, hi: nat): Agents
    requires lo <= hi < |log|
    decreases hi
  {
    if lo == hi then agents else ApplyEntry(ApplyRange(agents, log, lo, hi - 1), log[hi])
  }

  /** The registry that the log describes up to index `k`. */
  function Replay(log: Log, k: nat): Agents
    requires k < |log|
  {
    ApplyRange(map[], log, 0, k)
  }

  function StepAll(agents: Agents, grid: Grid): Agents {
    map a | a in agents :: StepAgent(agents[a], DT, grid)
  }

  function Put(agents: Agents, agent: Agent): Agents {
    agents[agent.id := agent]
  }

  function Drop(agents: Agents, ids: set<AgentId>): Agents {
    agents - ids
  }

  // ---------- the gate ----------

  predicate CaughtUp(s: NodeState) {
    s.lastApplied >= |s.log| - 1
  }

  datatype Poll = Ready | Waiting | Deposed

  /** One look of `_wait_applied`: the term is checked first. */
  function PollApplied(s: NodeState, index: nat, term: nat): Poll {
    if !(s.currentTerm == term && s.role == Leader) then Deposed
    else if s.lastApplied >= index then Ready
    else Waiting
  }

  // ---------- add_agent ----------

  /** The lock is taken and the wait for `caught_up` begins; only a leader gets this far. */
  function BeginAdd(s: NodeState, l: Local, agent: Agent): Local
    requires |s.log| > 0
  {
    if s.role == Leader then l.(task := WaitToAdd(agent, |s.log| - 1, s.currentTerm)) else l
  }

  /** From the end of that wait to the next one: remember, put, propose. */
  function AddSnapshot(s: NodeState, l: Local): (NodeState, Local)
    requires l.task.WaitToAdd?
  {
    var agents := Put(l.agents, l.task.agent);
    if s.role == Leader then
      (RS.Propose(s, Snapshot(agents)),
       l.(agents := agents, task := Adding(l.task.agent, l.agents, |s.log|, s.currentTerm)))
    else (s, l.(task := Free))
  }

  function FinishAdd(l: Local): Local {
    l.(task := Free)
  }

  function RollBack(l: Local): Local
    requires l.task.Adding?
  {
    l.(agents := l.task.before, task := Free)
  }

  // ---------- tick, for one shard ----------

  /** Phase 1 under the lock. The role is not looked at again, so a replica
      deposed meanwhile moves its own agents and proposes nothing. */
  function TickSnapshot(s: NodeState, l: Local, grid: Grid): (NodeState, Local) {
    if !CaughtUp(s) then (s, l.(ticking := false))
    else var agents := StepAll(l.agents, grid);
         (RS.Propose(s, Snapshot(agents)), l.(agents := agents, ticking := false))
  }

  function BeginRemove(s: NodeState, l: Local, ids: set<AgentId>): Local
    requires |s.log| > 0
  {
    if s.role == Leader then l.(task := WaitToRemove(ids, |s.log| - 1, s.currentTerm)) else l
  }

  /** Phase 2 under the lock, once caught up. */
  function RemoveSnapshot(s: NodeState, l: Local): (NodeState, Local)
    requires l.task.WaitToRemove?
  {
    var agents := Drop(l.agents, l.task.ids);
    (RS.Propose(s, Snapshot(agents)), l.(agents := agents, task := Free))
  }

  // ---------- facts about replaying ----------

  lemma {:induction false} ReplayOnwards(log: Log, lo: nat, hi: nat)
    requires lo <= hi < |log|
    ensures ApplyRange(Replay(log, lo), log, lo, hi) == Replay(log, hi)
    decreases hi
  {
    if lo < hi {
      ReplayOnwards(log, lo, hi - 1);
    }
  }

  /** Applying a stretch of log forgets what was there before, unless it holds no snapshot. */
  lemma {:induction false} ApplyRangeForgets(agents: Agents, other: Agents, log: Log, lo: nat, hi: nat)
    requires lo <= hi < |log|
    ensures if exists i :: lo < i <= hi && log[i].command.Snapshot?
            then ApplyRange(agents, log, lo, hi) == ApplyRange(other, log, lo, hi)
            else ApplyRange(agents, log, lo, hi) == agents
    decreases hi
  {
    if lo < hi {
      ApplyRangeForgets(agents, other, log, lo, hi - 1);
      if log[hi].command.Snapshot? {
        assert lo < hi <= hi;
      }
    }
  }

  lemma {:induction false} ReplayPrefix(a: Log, b: Log, k: nat)
    requires k < |a| && k < |b| && a[..k + 1] == b[..k + 1]
    ensures Replay(a, k) == Replay(b, k)
    decreases k
  {
    if k > 0 {
      assert a[..k] == a[..k + 1][..k] && b[..k] == b[..k + 1][..k];
      ReplayPrefix(a, b, k - 1);
      assert a[k] == a[..k + 1][k] == b[..k + 1][k] == b[k];
    }
  }
}
