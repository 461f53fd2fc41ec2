/** What a tick does to the agents of a node that hosts every shard, whichever of
    them it leads. A shard is taken for what its whole log says, applied or not. */
module RegionTick {
  import opened World
  import opened RaftTypes
  import RS = RaftSpec
  import opened ShardSpec
  import opened RegionSpec

  /** The registry that the whole log of the replica describes. */
  function Meaning(r: Replica): Agents
    requires Sane(r)
  {
    Replay(r.raft.log, |r.raft.log| - 1)
  }

  /** If this node leads the shard, it knows it, and holds what it applied or what it last proposed. */
  ghost predicate Ours(r: Replica, me: NodeId) {
    && Sane(r)
    && (r.raft.role == Leader ==>
          r.raft.leaderId == me && (r.agents == Replay(r.raft.log, r.raft.lastApplied) || r.agents == Meaning(r)))
  }

  /** All shards are like this, among them every shard an agent can move to. */
  ghost predicate AllOurs(shards: Shards, site: Site) {
    && ValidGrid(site.grid) && site.me in site.peers
    && (forall s | s in shards :: Ours(shards[s], site.me))
    && (forall x, y :: ShardIdFor(x, y, site.grid) in shards)
  }

  /** All shards as what their logs describe. */
  type Places = map<ShardId, Agents>

  function Meanings(shards: Shards): Places
    requires AllSane(shards)
  {
    map s | s in shards :: Meaning(shards[s])
  }

  /** Shard `s` has an agent called `id`. */
  predicate Lists(m: Places, s: ShardId, id: AgentId) {
    s in m && id in m[s]
  }

  ghost predicate AllKeyed(m: Places) {
    forall s, id | Lists(m, s, id) :: m[s][id].id == id
  }

  ghost predicate UniqueIds(m: Places) {
    forall s, t, id | Lists(m, s, id) && Lists(m, t, id) :: s == t
  }

  // ---------- what the pieces mean ----------

  lemma RangeMeans(log: Log, lo: nat, hi: nat, agents: Agents)
    requires lo <= hi < |log| && (agents == Replay(log, lo) || agents == Replay(log, |log| - 1))
    ensures var later := ApplyRange(agents, log, lo, hi);
            later == Replay(log, hi) || (hi < |log| - 1 && later == Replay(log, |log| - 1))
  {
    ReplayOnwards(log, lo, hi);
    ApplyRangeForgets(agents, Replay(log, lo), log, lo, hi);
  }

  lemma ProgressMeans(r: Replica, upTo: nat, me: NodeId)
    requires Ours(r, me)
    ensures Ours(Progress(r, upTo), me) && Meaning(Progress(r, upTo)) == Meaning(r)
  {
    if r.raft.role == Leader && upTo > r.raft.lastApplied {
      RangeMeans(r.raft.log, r.raft.lastApplied, Max(r.raft.commitIndex, RS.Min(upTo, |r.raft.log| - 1)), r.agents);
    }
  }

  lemma PassMeans(r: Replica, turn: Turn, me: NodeId)
    requires Ours(r, me)
    ensures Ours(Pass(r, turn), me) && Meaning(Pass(r, turn)) == Meaning(r)
  {
    match turn
    case Stores => ProgressMeans(r, |r.raft.log| - 1, me);
    case Stalls(upTo) => ProgressMeans(r, upTo, me);
    case Deposes(upTo, _, _) => ProgressMeans(r, upTo, me);
  }

  /** Whatever happens meanwhile, a wait for the whole log that succeeds ends with the
      log's own registry, in the same term. */
  lemma WaitMeans(r: Replica, turn: Turn, me: NodeId)
    requires Ours(r, me)
    ensures var (r', ok) := WaitCaughtUp(r, turn);
            && Ours(r', me) && Meaning(r') == Meaning(r)
            && (r.raft.role == Leader && turn == Stores ==> ok)
            && (ok ==> Moves(r') && r'.agents == Meaning(r) && r'.raft.currentTerm == r.raft.currentTerm)
  {
    PassMeans(r, turn, me);
  }

  lemma SetAgentsMeans(r: Replica, agents: Agents, me: NodeId)
    requires Ours(r, me) && Moves(r)
    ensures var r' := SetAgents(r, agents);
            && Ours(r', me) && Meaning(r') == agents && r'.raft.role == Leader && r'.raft.currentTerm == r.raft.currentTerm
            && r'.raft.log == r.raft.log + [Entry(r.raft.currentTerm, |r.raft.log|, Snapshot(agents))]
            && r'.raft.lastApplied == r.raft.lastApplied == |r.raft.log| - 1
            && Replay(r'.raft.log, r.raft.lastApplied) == Meaning(r)
  {
    var log' := r.raft.log + [Entry(r.raft.currentTerm, |r.raft.log|, Snapshot(agents))];
    assert log'[..|r.raft.log|] == r.raft.log[..|r.raft.log|];
    ReplayPrefix(r.raft.log, log', |r.raft.log| - 1);
  }

  /** The wait for an entry just proposed: if it fails and the node still leads, then
      the entry is the only one not applied. */
  lemma StoreMeans(r: Replica, turn: Turn, me: NodeId)
    requires Ours(r, me) && r.raft.role == Leader && r.raft.lastApplied == |r.raft.log| - 2
    ensures var (r', ok) := WaitCaughtUp(r, turn);
            && Sane(r') && Meaning(r') == Meaning(r)
            && (if ok then Ours(r', me) && r'.raft.role == Leader
                else r'.raft.role == Leader ==> r'.raft.leaderId == me && r'.raft.lastApplied == |r.raft.log| - 2)
            && (turn == Stores ==> ok) && (ok ==> AllStored(r'))
  {
    PassMeans(r, turn, me);
  }

  predicate AllStored(r: Replica) {
    r.raft.commitIndex == |r.raft.log| - 1
  }

  /** Adding an agent: the log has it and is stored once the answer is yes, and may have it anyway. */
  lemma AddMeans(r: Replica, agent: Agent, waits: Waits, me: NodeId)
    requires Ours(r, me)
    ensures var (r', ok) := AddAgent(r, agent, waits);
            && Ours(r', me)
            && (r.raft.role == Leader && waits == CALM ==> ok && r'.raft.role == Leader)
            && (Meaning(r') == Put(Meaning(r), agent) || (!ok && Meaning(r') == Meaning(r)))
            && (ok ==> AllStored(r'))
  {
    WaitMeans(r, waits.catchUp, me);
    var (r1, ready) := WaitCaughtUp(r, waits.catchUp);
    if ready {
      var agents := Put(r1.agents, agent);
      SetAgentsMeans(r1, agents, me);
      StoreMeans(SetAgents(r1, agents), waits.store, me);
    }
  }

  lemma MoveMeans(r: Replica, grid: Grid, me: NodeId)
    requires Ours(r, me)
    ensures var r' := MoveShard(r, grid);
            && Ours(r', me) && r'.raft.role == r.raft.role
            && (Moves(r) ==> r.agents == Meaning(r))
            && Meaning(r') == if Moves(r) then StepAll(Meaning(r), grid) else Meaning(r)
  {
    if Moves(r) {
      SetAgentsMeans(r, StepAll(r.agents, grid), me);
    }
  }

  lemma RemoveMeans(r: Replica, ids: set<AgentId>, turn: Turn, me: NodeId)
    requires Ours(r, me)
    ensures var r' := RemoveAgents(r, ids, turn);
            && Ours(r', me)
            && (Meaning(r') == Drop(Meaning(r), ids) || Meaning(r') == Meaning(r))
            && (r.raft.role == Leader && turn == Stores ==> r'.raft.role == Leader && Meaning(r') == Drop(Meaning(r), ids))
  {
    WaitMeans(r, turn, me);
    var (r1, ready) := WaitCaughtUp(r, turn);
    if ready {
      SetAgentsMeans(r1, Drop(r1.agents, ids), me);
    }
  }

  // ---------- listed for good ----------

  /** Whatever becomes of the entries that are not known to be stored, the shard lists the
      agent: every log that can be left, from the committed part to the whole, does. */
  ghost predicate ForGood(r: Replica, id: AgentId)
    requires Sane(r)
  {
    forall c: nat | r.raft.commitIndex <= c < |r.raft.log| :: id in Replay(r.raft.log, c)
  }

  /** Who was listed for good still is. */
  ghost predicate StillGood(r: Replica, r': Replica)
    requires Sane(r) && Sane(r')
  {
    forall id | ForGood(r, id) :: ForGood(r', id)
  }

  lemma GoodIsMeant(r: Replica, id: AgentId)
    requires Sane(r) && ForGood(r, id)
    ensures id in Meaning(r)
  {}

  lemma WaitGood(r: Replica, index: nat, turn: Turn)
    requires Sane(r) && index < |r.raft.log|
    ensures StillGood(r, WaitApplied(r, index, turn).0)
  {}

  /** A wait for the last entry that succeeds leaves nothing that could be lost. */
  lemma StoredGood(r: Replica, turn: Turn)
    requires Sane(r)
    ensures var (r', ok) := WaitCaughtUp(r, turn); ok ==> forall id | id in Meaning(r') :: ForGood(r', id)
  {}

  lemma SetAgentsGood(r: Replica, agents: Agents)
    requires Sane(r) && CaughtUp(r.raft) && (r.raft.role == Leader ==> forall id | id in Meaning(r) :: id in agents)
    ensures StillGood(r, SetAgents(r, agents))
  {
    var log, log' := r.raft.log, SetAgents(r, agents).raft.log;
    if r.raft.role == Leader {
      assert log'[..|log|] == log;
      ReplayPrefix(log, log', |log| - 1);
    }
  }

  /** `add_agent` takes nobody's place, and says yes only when the agent is listed for good. */
  lemma AddGood(r: Replica, agent: Agent, waits: Waits, me: NodeId)
    requires Ours(r, me)
    ensures var (r', ok) := AddAgent(r, agent, waits); StillGood(r, r') && (ok ==> ForGood(r', agent.id))
  {
    WaitGood(r, |r.raft.log| - 1, waits.catchUp);
    WaitMeans(r, waits.catchUp, me);
    var (r1, ready) := WaitCaughtUp(r, waits.catchUp);
    if ready {
      var r2 := SetAgents(r1, Put(r1.agents, agent));
      SetAgentsMeans(r1, Put(r1.agents, agent), me);
      SetAgentsGood(r1, Put(r1.agents, agent));
      WaitGood(r2, |r1.raft.log|, waits.store);
      StoredGood(r2, waits.store);
      StoreMeans(r2, waits.store, me);
    }
  }

  lemma MoveGood(r: Replica, grid: Grid, me: NodeId)
    requires Ours(r, me)
    ensures StillGood(r, MoveShard(r, grid))
  {
    MoveMeans(r, grid, me);
    if Moves(r) {
      SetAgentsGood(r, StepAll(r.agents, grid));
    }
  }

  /** A removal leaves all others. */
  lemma RemoveGood(r: Replica, ids: set<AgentId>, turn: Turn, me: NodeId, id: AgentId)
    requires Ours(r, me) && ForGood(r, id) && id !in ids
    ensures ForGood(RemoveAgents(r, ids, turn), id)
  {
    WaitGood(r, |r.raft.log| - 1, turn);
    WaitMeans(r, turn, me);
    var (r1, ready) := WaitCaughtUp(r, turn);
    if ready {
      GoodIsMeant(r1, id);
      DropGood(r1, ids, id);
    }
  }

  lemma DropGood(r: Replica, ids: set<AgentId>, id: AgentId)
    requires Sane(r) && CaughtUp(r.raft) && ForGood(r, id) && id in r.agents && id !in ids
    ensures ForGood(SetAgents(r, Drop(r.agents, ids)), id)
  {
    var log, log' := r.raft.log, SetAgents(r, Drop(r.agents, ids)).raft.log;
    if r.raft.role == Leader {
      assert log'[..|log|] == log;
      ReplayPrefix(log, log', |log| - 1);
    }
  }

  /** Shard `s` lists the agent for good. */
  ghost predicate Sure(shards: Shards, s: ShardId, id: AgentId)
    requires AllSane(shards)
  {
    s in shards && ForGood(shards[s], id)
  }

  ghost predicate AllStillGood(shards: Shards, shards': Shards)
    requires AllSane(shards) && AllSane(shards')
  {
    forall s, id | Sure(shards, s, id) :: Sure(shards', s, id)
  }

  // ---------- the requests of phase 2 ----------

  ghost predicate AllLead(shards: Shards) {
    forall s | s in shards :: shards[s].raft.role == Leader
  }

  lemma MeaningsUpdate(shards: Shards, site: Site, s: ShardId, r: Replica)
    requires AllOurs(shards, site) && Ours(r, site.me)
    ensures AllOurs(shards[s := r], site)
    ensures Meanings(shards[s := r]) == Meanings(shards)[s := Meaning(r)]
  {}

  /** The destination is this node. */
  lemma HandOffMeans(shards: Shards, site: Site, agent: Agent, dest: ShardId, waits: Waits)
    requires AllOurs(shards, site) && dest in shards
    ensures var (after, answer) := HandOff(shards, dest, shards[dest].raft.currentTerm, agent, waits);
            var m, m' := Meanings(shards), Meanings(after);
            && AllOurs(after, site)
            && (m' == m[dest := Put(m[dest], agent)] || (answer != Accepted && m' == m))
            && (AllLead(shards) && waits == CALM ==> answer == Accepted && AllLead(after))
  {
    if shards[dest].raft.role == Leader {
      AddMeans(shards[dest], agent, waits, site.me);
      var r := AddAgent(shards[dest], agent, waits).0;
      MeaningsUpdate(shards, site, dest, r);
      assert Meanings(shards)[dest := Meaning(shards[dest])] == Meanings(shards);
    }
  }

  /** One request: nobody but the destination changes, and a yes comes from a shard
      here that has the agent or from another node. */
  lemma RequestMeans(shards: Shards, site: Site, agent: Agent, dest: ShardId, waits: Waits)
    requires AllOurs(shards, site) && dest in shards
    ensures var (after, answer) := RequestHandOff(shards, site, agent, dest, waits);
            var m, m' := Meanings(shards), Meanings(after);
            && AllOurs(after, site)
            && (m' == m[dest := Put(m[dest], agent)] || (m' == m && (answer == Accepted ==> agent.id in site.elsewhere)))
            && (AllLead(shards) && waits == CALM ==>
                  answer == Accepted && AllLead(after) && m' == m[dest := Put(m[dest], agent)])
  {
    HandOffMeans(shards, site, agent, dest, waits);
  }

  /** A yes means that the agent is listed for good here, or that another node said it. */
  lemma RequestGood(shards: Shards, site: Site, agent: Agent, dest: ShardId, waits: Waits)
    requires AllOurs(shards, site) && dest in shards
    ensures var (after, answer) := RequestHandOff(shards, site, agent, dest, waits);
            && AllStillGood(shards, after)
            && (answer == Accepted ==> Sure(after, dest, agent.id) || agent.id in site.elsewhere)
  {
    AddGood(shards[dest], agent, waits, site.me);
  }

  ghost predicate TookOver(shards: Shards, elsewhere: set<AgentId>, d: Departure, s: ShardId, id: AgentId)
    requires AllSane(shards)
  {
    d.src == s && d.agent.id == id && (Sure(shards, d.dest, id) || id in elsewhere)
  }

  /** Who is accepted is noted at the source, and listed for good at the destination or taken by another node. */
  ghost predicate HandedOk(shards: Shards, handed: Handed, ds: seq<Departure>, elsewhere: set<AgentId>)
    requires AllSane(shards)
  {
    forall s, id | s in handed && id in handed[s] ::
      exists d :: d in ds && TookOver(shards, elsewhere, d, s, id)
  }

  ghost predicate NoneLeaves(m: Places, m': Places) {
    forall s, id | Lists(m, s, id) :: Lists(m', s, id)
  }

  function Noted(handed: Handed, d: Departure, answer: Answer): Handed {
    if answer == Accepted then Note(handed, d.src, d.agent.id) else handed
  }

  lemma OneRequest(before: Shards, handed: Handed, site: Site, front: seq<Departure>, d: Departure)
    requires AllOurs(before, site) && HandedOk(before, handed, front, site.elsewhere) && d.dest in before
    ensures var (after, answer) := RequestHandOff(before, site, d.agent, d.dest, site.asking(d));
            && AllOurs(after, site) && NoneLeaves(Meanings(before), Meanings(after)) && AllStillGood(before, after)
            && HandedOk(after, Noted(handed, d, answer), front + [d], site.elsewhere)
  {
    RequestMeans(before, site, d.agent, d.dest, site.asking(d));
    var (after, answer) := RequestHandOff(before, site, d.agent, d.dest, site.asking(d));
    RequestGood(before, site, d.agent, d.dest, site.asking(d));
    NoteKeeps(before, after, handed, front, d, answer, site.elsewhere);
  }

  lemma {:induction false} RequestsLoseNothing(shards: Shards, site: Site, ds: seq<Departure>)
    requires AllOurs(shards, site) && forall d | d in ds :: d.dest in shards
    ensures var (after, handed) := HandOffAll(shards, site, ds);
            && AllOurs(after, site) && HandedOk(after, handed, ds, site.elsewhere)
            && NoneLeaves(Meanings(shards), Meanings(after)) && AllStillGood(shards, after)
  {
    if ds != [] {
      var front, d := ds[..|ds| - 1], ds[|ds| - 1];
      assert front + [d] == ds;
      RequestsLoseNothing(shards, site, front);
      var (before, handed) := HandOffAll(shards, site, front);
      OneRequest(before, handed, site, front, d);
    }
  }

  lemma NoteKeeps(shards: Shards, shards': Shards, handed: Handed, ds: seq<Departure>, d: Departure, answer: Answer,
                  elsewhere: set<AgentId>)
    requires AllSane(shards) && AllSane(shards') && HandedOk(shards, handed, ds, elsewhere) && AllStillGood(shards, shards')
    requires answer == Accepted ==> Sure(shards', d.dest, d.agent.id) || d.agent.id in elsewhere
    ensures HandedOk(shards', Noted(handed, d, answer), ds + [d], elsewhere)
  {
    var handed' := Noted(handed, d, answer);
    forall s, id | s in handed' && id in handed'[s]
      ensures exists e :: e in ds + [d] && TookOver(shards', elsewhere, e, s, id)
    {
      if s in handed && id in handed[s] {
        var e :| e in ds && TookOver(shards, elsewhere, e, s, id);
        assert e in ds + [d] && TookOver(shards', elsewhere, e, s, id);
      } else {
        assert d in ds + [d] && TookOver(shards', elsewhere, d, s, id);
      }
    }
  }

  // ---------- nothing is lost ----------

  function MovePlace(r: Replica, grid: Grid): Agents
    requires Sane(r)
  {
    if Moves(r) then StepAll(Meaning(r), grid) else Meaning(r)
  }

  lemma MoveAllMeans(shards: Shards, site: Site)
    requires AllOurs(shards, site)
    ensures AllOurs(MoveAll(shards, site.grid), site) && (AllLead(shards) ==> AllLead(MoveAll(shards, site.grid)))
    ensures Meanings(MoveAll(shards, site.grid)) == map s | s in shards :: MovePlace(shards[s], site.grid)
  {
    forall s | s in shards
      ensures var r' := MoveShard(shards[s], site.grid); Ours(r', site.me) && Meaning(r') == MovePlace(shards[s], site.grid)
    {
      MoveMeans(shards[s], site.grid, site.me);
    }
  }

  lemma RemoveAllMeans(shards: Shards, handed: Handed, site: Site)
    requires AllOurs(shards, site)
    ensures var after := RemoveAll(shards, handed, site.relieving);
            var m, m' := Meanings(shards), Meanings(after);
            && AllOurs(after, site)
            && forall s | s in m ::
                 if s !in handed then m'[s] == m[s]
                 else (m'[s] == Drop(m[s], handed[s]) || m'[s] == m[s])
                      && (AllLead(shards) && site.relieving(s) == Stores ==>
                            after[s].raft.role == Leader && m'[s] == Drop(m[s], handed[s]))
  {
    forall s | s in shards && s in handed
      ensures var r, r' := shards[s], RemoveAgents(shards[s], handed[s], site.relieving(s));
              && Ours(r', site.me)
              && (Meaning(r') == Drop(Meaning(r), handed[s]) || Meaning(r') == Meaning(r))
              && (r.raft.role == Leader && site.relieving(s) == Stores ==>
                    r'.raft.role == Leader && Meaning(r') == Drop(Meaning(r), handed[s]))
    {
      RemoveMeans(shards[s], handed[s], site.relieving(s), site.me);
    }
  }

  lemma SourceLists(shards: Shards, site: Site, d: Departure)
    requires AllOurs(shards, site) && AllKeyed(Meanings(shards)) && Departs(shards, site.grid, d)
    ensures d.agent.id == d.id && Lists(Meanings(shards), d.src, d.id)
  {
    MoveMeans(shards[d.src], site.grid, site.me);
    assert Lists(Meanings(shards), d.src, d.id);
  }

  /** An agent called `id` left `s`, and another node would have it. */
  ghost predicate TakenElsewhere(ds: seq<Departure>, elsewhere: set<AgentId>, s: ShardId, id: AgentId) {
    id in elsewhere && exists d :: d in ds && d.src == s && d.agent.id == id
  }

  lemma MoveAllGood(shards: Shards, site: Site)
    requires AllOurs(shards, site)
    ensures AllStillGood(shards, MoveAll(shards, site.grid))
  {
    forall s | s in shards ensures StillGood(shards[s], MoveShard(shards[s], site.grid)) {
      MoveGood(shards[s], site.grid, site.me);
    }
  }

  lemma RemoveAllGood(shards: Shards, handed: Handed, site: Site, s: ShardId, id: AgentId)
    requires AllOurs(shards, site) && Sure(shards, s, id) && !(s in handed && id in handed[s])
    ensures Sure(RemoveAll(shards, handed, site.relieving), s, id)
  {
    if s in handed {
      RemoveGood(shards[s], handed[s], site.relieving(s), site.me, id);
    }
  }

  /** Who was noted at `s` was taken by another node or by another shard, which notes only its own. */
  lemma KeptOrTaken(m: Places, asked: Shards, handed: Handed, ds: seq<Departure>, elsewhere: set<AgentId>, s: ShardId, id: AgentId)
    returns (t: ShardId)
    requires UniqueIds(m) && Lists(m, s, id) && AllSane(asked) && HandedOk(asked, handed, ds, elsewhere)
    requires forall d | d in ds :: Lists(m, d.src, d.agent.id) && d.dest != d.src
    ensures !(s in handed && id in handed[s]) ==> t == s
    ensures s in handed && id in handed[s] ==>
              TakenElsewhere(ds, elsewhere, s, id) || (Sure(asked, t, id) && !(t in handed && id in handed[t]))
  {
    t := s;
    if s in handed && id in handed[s] {
      var d :| d in ds && TookOver(asked, elsewhere, d, s, id);
      t := d.dest;
      assert !Lists(m, t, id);
    }
  }

  /** However each wait ends, a tick over uniquely named agents loses none: a hand-off or a
      removal that fails anywhere leaves the agent where it was, or in both places. Who was
      listed for good, by whatever part of the log survives, is so afterwards. */
  lemma TickLosesNothing(shards: Shards, site: Site, ds: seq<Departure>, s: ShardId, id: AgentId) returns (t: ShardId)
    requires AllOurs(shards, site) && AllKeyed(Meanings(shards)) && UniqueIds(Meanings(shards))
    requires AreDepartures(shards, site.grid, ds) && Lists(Meanings(shards), s, id)
    ensures forall d | d in ds :: d.dest in shards
    ensures var after := Tick(shards, site, ds);
            && AllOurs(after, site)
            && (TakenElsewhere(ds, site.elsewhere, s, id)
                || (Lists(Meanings(after), t, id) && (t != s || Sure(shards, s, id) ==> Sure(after, t, id))))
  {
    var moved := MoveAll(shards, site.grid);
    MoveAllMeans(shards, site);
    MoveAllGood(shards, site);
    RequestsLoseNothing(moved, site, ds);
    var (asked, handed) := HandOffAll(moved, site, ds);
    forall d | d in ds
      ensures Lists(Meanings(shards), d.src, d.agent.id) && d.dest != d.src
    {
      SourceLists(shards, site, d);
    }
    assert Lists(Meanings(moved), s, id);
    t := KeptOrTaken(Meanings(shards), asked, handed, ds, site.elsewhere, s, id);
    RemovalLeaves(asked, handed, site, t, id);
  }

  lemma RemovalLeaves(asked: Shards, handed: Handed, site: Site, t: ShardId, id: AgentId)
    requires AllOurs(asked, site)
    ensures var after := RemoveAll(asked, handed, site.relieving);
            && AllOurs(after, site)
            && (!(t in handed && id in handed[t]) ==>
                  (Lists(Meanings(asked), t, id) ==> Lists(Meanings(after), t, id))
                  && (Sure(asked, t, id) ==> Sure(after, t, id) && Lists(Meanings(after), t, id)))
  {
    RemoveAllMeans(asked, handed, site);
    if !(t in handed && id in handed[t]) && Sure(asked, t, id) {
      GoodIsMeant(asked[t], id);
      RemoveAllGood(asked, handed, site, t, id);
    }
  }
}
