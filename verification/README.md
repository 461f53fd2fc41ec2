# Verified model of the distributed spine

This project models the stateful core of the repository and proves what that core
is for: a Raft group never commits two different entries at one index, a sharded
world replicated through such groups behaves like one world, agents survive
hand-offs, SWIM rumours are refuted for good, and no worker is left waiting at the
training barrier. Where a promise turns out not to hold, a concrete run shows it
and a condition says exactly when it does hold.

`dafny verify dfyconfig.toml` checks everything.

## How it is built

The source runs on one asyncio event loop, so the code between two awaits is atomic.
Each such piece is a pure step function (`RaftSpec`, `ShardSpec`, `RegionSpec`,
`SwimSpec`, `BarrierSpec`). Beside it stands the same piece as the program has it: a
class whose methods update fields in place, with the source's loops, proved to compute
exactly that step (`RaftNode`, `Shard`, `Region`, `SwimNode`, `Barrier`, and
`World.AgentState`). The step functions are then composed into systems in which
timers, message delays, losses, duplicates and reorderings are free choices, and the
main results are theorems about every run of these systems.

* **Raft.** `RaftCluster` is the whole group. Requests stay in the network for ever and
  may be handled any number of times, each call hands over at most one reply, nodes stop
  and start. A history that no step reads records votes, won elections with their logs,
  acknowledgements and commits. `RaftInvariant` states the invariant, `RaftFrames`,
  `RaftHistorySteps`, `RaftNodeSteps`, `RaftReplicationSteps` and `RaftPreservation` show
  that every step keeps it, `RaftCompleteness` derives Leader Completeness from it, and
  `RaftSafety` states the theorems over runs. `RaftElections` says when elections are won
  and terms and hints taken over, `RaftRepair` how any log is brought in line, and
  `RaftProgress` that any running majority suffices to elect, repair, commit and deliver.
* **The replicated shard.** `ShardGroup` puts a registry and a lock holder on top of every
  node of a Raft group and interleaves `tick`, `add_agent` and the removal of handed-off
  agents with all Raft steps at every await, where a wait may also run into its deadline or
  be cancelled, and records what each node was asked to do.
  `ShardSafety` shows that an accepted agent's entry is durable, `ShardLeadership` that
  within one leadership every snapshot is one operation that was asked for, done to what
  the log says. `ShardSurvival` gives the condition under which an accepted agent stays for
  good, `ShardErasure` shows why it is needed, `ShardLoss` and `ShardLossRun` build a run
  in which it fails.
* **The region server.** `Region` is the two-phase tick over all shards of a node.
  `RegionTick` shows that a tick loses no uniquely named agent, however each of its waits
  ends; `RegionFlat` that without faults it is a tick of one flat world; `RegionRuns` that
  this goes on for ever. `Conservation` treats hand-offs between many nodes with late,
  repeated and lost messages. `World` has regions and motion, `TwoShards` the smallest grid
  in which agents can change places. `RegionAnswers` says what a shard answers when it is
  asked to take an agent, the fence by the term included.
* **SWIM.** `SwimBeliefs` is about merging records, `SwimQueue` about the gossip queue,
  `SwimRuns` about the whole life of a member, `SwimTimers` about which suspicions can end
  in death, `SwimGossip` about how often a record is passed on, `SwimNews` about what is
  passed on at all, to whom, and what comes back.
* **The round barrier.** `BarrierRuns` composes the barrier with its callers, `BarrierNotes`
  tells by the submissions alone which of them close a round and what it averages.

`Ways` has what is common to going on from a state by the moves of a system.

## Where code and documentation disagree

The model follows the code.

* README.md:21 says the sharded world loses nothing. `add_agent` restores the registry it
  remembered even when the node was deposed and newer snapshots were applied meanwhile
  (src/dssd/sharding/shard_state.py:69). If that node leads again, it finds itself caught
  up and proposes the old registry. `ShardLossRun.AcceptedAgentCanBeLost` is a run of two
  nodes in which an accepted agent disappears this way. `ShardSurvival.AcceptedAgentStays`
  is the promise for all runs in which, from the accepted entry on, nobody asks to remove the
  agent again and roll-backs are harmless, which the node could check before each of them;
  `ShardSurvival.RollBackKeepsExactlyWhen` says that this is exactly when a roll-back keeps the
  agent, `ShardErasure.HarmfulRollBackForgets` that any other leaves a registry without it, and
  `ShardErasure.ForgetfulLeaderErases` that this node, once it leads, can write the agent off.
* src/dssd/sharding/handoff.py:5-7 says a crash can duplicate an agent but never lose one.
  A shard removes by name what it handed off (src/dssd/sharding/region_server.py:78-79), so
  an agent that comes back before the removal is lost (`Conservation.AgentCanBeLost`), and
  so are two that change places under one name (`RegionRuns.SharedNameCanBeLost`).
  `Conservation.NoAgentIsLost` and `RegionFlat.SurvivesExactlyWhen` give the conditions.
* src/dssd/swim.py:40 says only the member itself raises its incarnation;
  src/dssd/swim.py:226 raises it on behalf of a member that was believed dead. And
  src/dssd/swim.py:229-230 says a suspicion timer only fires if nobody refuted; a timer can
  outlive the refutation and a death after it, and take a later suspicion for its own
  (`SwimRuns.OldTimerCanKill`). The other way round a suspicion that replaces another
  gets no timer, even if both come in one message (`SwimTimers.SecondSuspicionIsNot`);
  `SwimTimers.TimedExactlyWhen` says which do.
* src/dssd/diloco/barrier.py:7 says every waiting worker gets the same new state. The
  answer is read when the worker wakes up (src/dssd/diloco/barrier.py:49), so it may be a
  later one (`BarrierRuns.AnswersCanDiffer`); `BarrierRuns.SameAnswerExactlyWhen` says when
  it is not.
* A node without peers is its own majority, but the winning vote is only looked for when
  a reply arrives, so it never leads (`RaftSafety.LoneNodeNeverLeads`).

## Model

| member | source | states |
|---|---|---|
| `RaftSafety.RunInvariant` | src/dssd/raft.py:6 | the cluster invariant holds at every moment of every run |
| `RaftPreservation.StepKeepsInvariant` | src/dssd/raft.py:72-298 | every step of the group, taken by any node at any time, keeps the invariant, and elections and leaders' logs once recorded only grow |
| `RaftSafety.NoStepFails` | src/dssd/raft.py:250-288 | no step of a reachable group looks up a missing peer or an index outside the log |
| `RaftSafety.ElectionSafety` | src/dssd/raft.py:153-205 | two nodes that ever lead the same term are the same node |
| `RaftSafety.OneVotePerTerm` | src/dssd/raft.py:72-79 | a vote once cast stays the same for the rest of its term, across stop and start |
| `RaftSafety.VoteCounterIsExact` | src/dssd/raft.py:169-185 | the integer counter of a candidate is the size of the set of members counted, itself among them, each with a recorded vote for it in its term |
| `RaftSafety.QuorumsIntersect` | src/dssd/raft.py:135-136 | two majorities, computed by any two members, share a member |
| `RaftSafety.LogMatchingProperty` | src/dssd/raft.py:233-241 | two logs, held now or earlier or cut into a request in flight, that agree on the term at an index agree up to it |
| `RaftSafety.RequestsAreCuts` | src/dssd/raft.py:253-262 | every request in flight is a cut of the log of that term's leader, with the right preceding term |
| `RaftSafety.LogShape` | src/dssd/raft.py:114-120 | entries sit at the index they carry, terms never decrease along a log, the sentinel stays in front |
| `RaftSafety.LeaderAppendsOnly` | src/dssd/raft.py:193-205 | while it leads a term a node only appends, and only entries of that term |
| `RaftSafety.BookkeepingIsSound` | src/dssd/raft.py:250-277 | next and match indices stay in range under late replies, and a peer in the leader's term agrees with it up to its match index |
| `RaftSafety.ClampIsFigure2` | src/dssd/raft.py:243-245 | for every request that can be in flight, clamping the commit index to the whole log equals clamping it to the last new entry |
| `RaftSafety.ClampCondition` | src/dssd/raft.py:243-245 | for arbitrary arguments the two clamps agree if and only if no more is announced than was sent or nothing lies behind it |
| `RaftCompleteness.LeaderCompleteness` | src/dssd/raft.py:209-220 | an entry committed by a counted majority is in the log with which every later term was won |
| `RaftSafety.LeadersHoldCommitted` | src/dssd/raft.py:279-288 | whoever leads a later term, before or after in time, holds everything that any node has marked committed |
| `RaftSafety.StateMachineSafety` | src/dssd/raft.py:243-245 | any two nodes at any two moments agree on every index that both have committed |
| `RaftSafety.AppliedSequencesAgree` | src/dssd/raft.py:292-298 | of the sequences that any two nodes have applied, one is a prefix of the other |
| `RaftSafety.DeliveredInOrder` | src/dssd/raft.py:292-298 | applied entries are indices 1 to last applied, once each and in order; whatever is committed and not applied has the signal set |
| `RaftSafety.NothingGoesBack` | src/dssd/raft.py:72-79 | terms and commit indices never decrease and what was applied stays applied, across stop and start |
| `RaftSafety.WakeUpDrains` | src/dssd/raft.py:292-298 | a running node with something left to apply can wake its applier, and one wake-up applies all of it |
| `RaftSafety.LoneNodeNeverLeads` | src/dssd/raft.py:171-185 | a group of one node never has a leader |
| `RaftElections.NoCandidateHasMajority` | src/dssd/raft.py:177-182 | in a group of more than one, whoever is still a candidate has been counted at most half of the group |
| `RaftElections.MajorityWins` | src/dssd/raft.py:177-182 | the granted vote that makes the counted members more than half of the group makes the candidate a leader, and no earlier one does |
| `RaftElections.NewerTermIsAdopted` | src/dssd/raft.py:178-179 | whoever hears of a newer term, in a request or a reply of any kind, is a follower in it afterwards |
| `RaftElections.RepliesTellTheTerm` | src/dssd/raft.py:209-226 | every reply tells the term its sender is in after handling the request, which is never an older one |
| `RaftElections.HintIsALeader` | src/dssd/raft.py:228-230 | whom a node names as leader has led its present term or an earlier one, and a leader names itself |
| `RaftElections.RestartFollows` | src/dssd/raft.py:72-79 | whatever a node was, a start makes it a follower without a hint, and its log, vote, commits and deliveries stay |
| `RaftRepair.Repair` | src/dssd/raft.py:250-277 | for any leader of a reachable group and any peer of a term no later, whatever its log: finitely many rounds of request, answer and backing up lead to the peer's log starting with the leader's, nobody else moving |
| `RaftProgress.Elect` | src/dssd/raft.py:153-220 | from whatever a group has come to, any running majority can go on by itself to having a leader among them whose term is the newest of theirs |
| `RaftProgress.MajoritySuffices` | src/dssd/raft.py:153-298 | and on to the whole of that leader's log, with an entry of its own term, being delivered by all of them |
| `RaftSpec.MatchLength` | src/dssd/raft.py:236-241 | finds the longest run of leading entries that the log already has, judged by term |
| `RaftSpec.NewestCommittable` | src/dssd/raft.py:279-288 | the result is committable or unchanged, and no newer index in range is committable |
| `RaftNode.Raft.constructor` | src/dssd/raft.py:48-70 | a new node has term 0, no vote and only the sentinel entry |
| `RaftNode.Raft.Start` | src/dssd/raft.py:72-79 | a start makes the node a follower and keeps term, vote and log |
| `RaftNode.Raft.Propose` | src/dssd/raft.py:114-120 | only a leader appends, and the index, term and role it reports are those of the new entry |
| `RaftNode.Raft.StartElection` | src/dssd/raft.py:153-168 | the new candidate state, and the request it sends |
| `RaftNode.Raft.ReceiveVoteReply` | src/dssd/raft.py:177-182 | counting one reply is the step that elections are built from |
| `RaftNode.Raft.BecomeLeader` | src/dssd/raft.py:193-205 | leadership resets the bookkeeping of every peer and appends the no-op |
| `RaftNode.Raft.HandleRequestVote` | src/dssd/raft.py:209-220 | new state and reply are those of the vote step |
| `RaftNode.Raft.HandleAppendEntries` | src/dssd/raft.py:222-246 | new state and reply are those of the append step |
| `RaftNode.Raft.TakeEntries` | src/dssd/raft.py:236-241 | the loop with its early exit computes the merged log |
| `RaftNode.Raft.ReplicateTo` | src/dssd/raft.py:250-262 | a leader of the asked term, and only it, sends its whole suffix |
| `RaftNode.Raft.ReceiveAppendReply` | src/dssd/raft.py:268-277 | state after one reply, late ones included |
| `RaftNode.Raft.AdvanceCommitIndex` | src/dssd/raft.py:279-288 | the downward loop stops at the newest committable index |
| `RaftNode.Raft.CountReplicas` | src/dssd/raft.py:285 | the counting loop gives the number of peers known to hold the index, to which the leader adds itself |
| `RaftNode.Raft.Apply` | src/dssd/raft.py:292-298 | one wake-up of the applier delivers everything committed, in order |
| `ShardGroup.RaftRunIsRun` | src/dssd/sharding/shard_state.py:23-36 | under every run of the replicas lies a run of the Raft group, so all Raft theorems apply |
| `ShardSafety.AcceptedIsDurable` | src/dssd/sharding/shard_state.py:57-89 | after `add_agent` answered True, the very entry it proposed is, at the same index and holding the agent, in the log of every later leader and of every node that committed so far |
| `ShardSafety.GroupRunInvariant` | src/dssd/sharding/shard_state.py:57-89 | at every moment each waiting `add_agent` waits for an entry that its node proposed in that term, and each accepted one is committed |
| `ShardLeadership.SnapshotsAreFaithful` | src/dssd/sharding/shard_state.py:41-89 | within one leadership that starts with the lock free and the registry equal to the log, every snapshot is the replay of the whole log before it, changed by exactly the tick, the agent to add or the names to remove that this node was asked for, each request at most once, for every interleaving and every cancelled wait; a caught-up registry is the replay |
| `ShardSurvival.RollBackIsRight` | src/dssd/sharding/shard_state.py:64-70 | rolling back leaves the registry right if and only if no snapshot was applied since, or the last one applied is the registry that is restored |
| `ShardSurvival.RollBackKeepsExactlyWhen` | src/dssd/sharding/shard_state.py:64-70 | where an agent's entry is applied, rolling back keeps the agent if and only if it is harmless: the last snapshot applied since the registry was remembered does not list it, or the remembered registry does |
| `ShardSurvival.AcceptedAgentStays` | src/dssd/sharding/shard_state.py:57-70 | over all runs: if no replica whose log has the accepted entry begins to remove the agent, and each roll-back where that entry is applied is harmless, then every later leader and every node that committed so far lists the agent, from its entry to the end of the log; earlier visits of the same name do not matter |
| `ShardSurvival.NotBeforeItIsProposed` | src/dssd/sharding/shard_state.py:64-66 | until the accepted entry is proposed no log has it, so no removal or roll-back before that counts against the agent |
| `ShardSurvival.StepKeepsName` | src/dssd/sharding/shard_state.py:41-89 | every step of the group, cancelled waits included, that does not begin such a removal and is no harmful roll-back keeps what makes an accepted agent stay: logs list it from its entry on, registries that applied it have it, and pending removals of it belong to terms whose log never had it |
| `ShardErasure.HarmfulRollBackForgets` | src/dssd/sharding/shard_state.py:64-70 | after a roll-back that is not harmless, and as long as only no-ops of elections follow in the log, the registry lacks an agent that the log lists, caught up or not |
| `ShardErasure.ForgetfulLeaderErases` | src/dssd/sharding/region_server.py:51-64 | the condition cannot be dropped: any caught-up leader whose registry lacks an agent that its log lists, as such a roll-back leaves it, can write the agent off with its next tick and commit that with any majority that follows |
| `ShardErasure.RemovalGoesThrough` | src/dssd/sharding/region_server.py:73-80 | a leader that is caught up and free can carry out a removal at once, and its log then says what the registry did without the names |
| `ShardLossRun.AcceptedAgentCanBeLost` | src/dssd/sharding/shard_state.py:64-70 | a run in which an agent was accepted, no removal was ever asked for, and the committed log ends up without it |
| `ShardSpec.ApplyRangeForgets` | src/dssd/sharding/shard_state.py:41-43 | applying a stretch of log forgets the registry before it exactly if the stretch holds a snapshot |
| `Shard.ShardStateMachine.ApplyEntry` | src/dssd/sharding/shard_state.py:41-43 | a snapshot replaces the registry, a no-op leaves it |
| `Shard.ShardStateMachine.Deliver` | src/dssd/raft.py:292-298 | one wake-up of the applier turns the registry into the replay of what was delivered |
| `Shard.ShardStateMachine.IsCaughtUp` | src/dssd/sharding/shard_state.py:45-50 | the gate tells whether every entry of the log is applied |
| `Shard.ShardStateMachine.ProposeTick` | src/dssd/sharding/shard_state.py:52-55 | the present registry is what is proposed |
| `Shard.ShardStateMachine.PollApplied` | src/dssd/sharding/shard_state.py:79-89 | each look of the wait checks term and role before the index |
| `Shard.ShardStateMachine.BeginAdd` | src/dssd/sharding/shard_state.py:61-63 | only a leader takes the lock any further, and waits for what its log ends with now |
| `Shard.ShardStateMachine.AddSnapshot` | src/dssd/sharding/shard_state.py:64-67 | between its waits `add_agent` remembers, puts and proposes; a node deposed meanwhile changes nothing |
| `Shard.ShardStateMachine.EndAdd` | src/dssd/sharding/shard_state.py:67-70 | a yes keeps the registry, anything else restores the remembered one |
| `Region.RegionServer.Tick` | src/dssd/sharding/region_server.py:47-80 | the two phases meet every departing agent exactly once and have the specified effect on all shards |
| `Region.RegionServer.MovePhase` | src/dssd/sharding/region_server.py:51-64 | every led and caught-up shard moves and proposes once, and the list holds exactly the agents that left their shard's region |
| `Region.RegionServer.StepAgents` | src/dssd/sharding/region_server.py:58-61 | the loop moves each agent once and lists exactly the crossers |
| `Region.RegionServer.HandOffPhase` | src/dssd/sharding/region_server.py:66-80 | requests in order, then one removal per source of exactly what was accepted |
| `Region.RegionServer.RemoveAgents` | src/dssd/sharding/region_server.py:73-80 | removal waits until the replica has caught up, drops all names at once and proposes the rest |
| `Region.RegionServer.SpawnAgent` | src/dssd/sharding/region_server.py:37-40 | only the leader of the agent's own region adds it |
| `Region.RegionServer.AddAgent` | src/dssd/sharding/shard_state.py:57-70 | `add_agent` from its first wait to its answer, refusals rolled back |
| `Region.RegionServer.WaitApplied` | src/dssd/sharding/shard_state.py:79-89 | what a wait answers, whatever happens meanwhile: everything stored, a stall somewhere in the log, or leadership lost |
| `Region.RegionServer.HandOff` | src/dssd/sharding/handoff.py:25-37 | the chain of guards, each with its own refusal |
| `Region.RegionServer.RequestHandOff` | src/dssd/sharding/region_server.py:82-89 | an unknown leader is a refusal, the known one is asked with the term this node sees |
| `RegionTick.TickLosesNothing` | src/dssd/sharding/region_server.py:47-80 | each wait of the tick may store everything, stall anywhere or depose the node: after the tick every uniquely named agent is still listed, and if it was listed by every log that can be left of its shard, committed part or more, so it is afterwards; where it moved it always is, unless another node said yes to it |
| `RegionTick.AddMeans` | src/dssd/sharding/shard_state.py:57-70 | however its two waits end: after a yes the log says the agent is there and all of it is stored; after a no it says so or nothing changed |
| `RegionTick.AddGood` | src/dssd/sharding/handoff.py:34-37 | a yes means that every log that can be left lists the agent, even if this node is deposed the moment after; and nobody else who was listed like that is lost |
| `RegionTick.RemoveGood` | src/dssd/sharding/region_server.py:73-80 | a removal, whether its waits succeed or not, leaves everybody else who was listed for good |
| `RegionTick.RemoveMeans` | src/dssd/sharding/region_server.py:73-80 | the removal is the log's registry without the names, never an older registry brought back; without it nothing changed |
| `RegionAnswers.FencedByTerm` | src/dssd/sharding/handoff.py:25-37 | for arbitrary shards, term and agent: a yes means that this node leads the shard in the very term asked for; any other request changes no shard |
| `RegionAnswers.ToldWhy` | src/dssd/sharding/handoff.py:27-33 | each refusal before the add names its reason: no such shard, not the leader, or the term it is now |
| `RegionAnswers.RightTermIsAccepted` | src/dssd/sharding/handoff.py:34-36 | whoever asks the leader in its term gets a yes if the group stores in time, and a yes means that the agent is listed for good as it was sent |
| `RegionAnswers.RequestIsAnswered` | src/dssd/sharding/region_server.py:82-89 | nobody is asked while the leader is unknown, another node's answer is handed on with nothing changed here, and this node takes what it leads |
| `RegionAnswers.RefusalLeavesRegistry` | src/dssd/sharding/shard_state.py:64-70 | a no leaves the registry that stood when the wait for the log was over, without the agent that was refused |
| `RegionAnswers.SpawnIsPlaced` | src/dssd/sharding/region_server.py:37-40 | a yes to a new agent lists it for good in the shard of its region, which this node leads; nothing else changes |
| `RegionFlat.TickPlacesAgents` | src/dssd/sharding/region_server.py:47-80 | without faults, for any names: a shard that listed a name keeps it if and only if its own copy stays, another has it if and only if a copy arrives, and what it has is a copy moved once |
| `RegionFlat.SurvivesExactlyWhen` | src/dssd/sharding/region_server.py:73-80 | a name survives the tick if and only if some copy stays or goes to a shard that did not list the name |
| `RegionFlat.TickIsFlat` | src/dssd/sharding/region_server.py:47-80 | with unique names one tick moves every agent exactly once, the union of the shards is the flat world's tick, and every agent is in the shard of its region |
| `RegionRuns.TicksInStep` | src/dssd/sharding/region_server.py:42-45 | after any number of ticks the union of the shards is the flat world after as many ticks |
| `RegionRuns.WhereAnAgentIs` | src/dssd/sharding/region_server.py:42-80 | after any number of ticks an agent is where two triangle waves say, listed by the shard of that place and no other |
| `RegionRuns.SharedNameCanBeLost` | src/dssd/sharding/region_server.py:78-79 | two shards that exchange agents of one name both lose it |
| `Conservation.NoAgentIsLost` | src/dssd/sharding/region_server.py:66-80 | over all runs with late, repeated and lost messages and lost leadership: if no shard says yes to a name whose removal it has pending, every spawned agent is always in a shard that is not about to remove it |
| `Conservation.StepKeeps` | src/dssd/sharding/handoff.py:34-37 | every spawn, hand-off, answer and removal that keeps this hypothesis keeps the invariant |
| `Conservation.UnsafeCanBeLost` | src/dssd/sharding/region_server.py:73-80 | the invariant cannot be weakened: once every shard that has an agent has its removal pending, finishing those removals loses it |
| `Conservation.AgentCanBeLost` | src/dssd/sharding/region_server.py:78-79 | a run of a real agent in a grid of two cells, each hand-off asked of the cell the agent is in: it turns round before its old shard hears yes, and no shard has it in the end |
| `World.ShardExists` | src/dssd/sharding/world.py:19-27 | every point, inside the world or not, belongs to a shard that is listed |
| `World.ShardIdsDistinct` | src/dssd/sharding/world.py:26-27 | no shard is listed twice |
| `World.CellContains` | src/dssd/sharding/world.py:19-23 | inside the world the named cell contains the point, on the far edge it is the last cell |
| `World.BounceInside` | src/dssd/sharding/world.py:46-51 | one bounce brings a position back inside if and only if it overshot by no more than the size |
| `World.MotionClosedForm` | src/dssd/sharding/world.py:38-51 | with no step longer than the world, any number of steps stay inside, keep the speed and follow a triangle wave |
| `World.AgentState.Step` | src/dssd/sharding/world.py:38-40 | the assignments move both axes and keep the name |
| `SwimBeliefs.RuleAndOrder` | src/dssd/swim.py:44-51 | the conflict rule and the order by incarnation and severity differ exactly where an old death beats a newer life or a newer death meets a standing one |
| `SwimBeliefs.OrderIsStrict` | src/dssd/swim.py:44-51 | that order is strict and total, and is the rule while nobody is dead |
| `SwimBeliefs.RuleHasCycle` | src/dssd/swim.py:47-48 | with a death among them three records beat each other in a circle |
| `SwimBeliefs.EndsAtMaximum` | src/dssd/swim.py:271-284 | without deaths, merging any updates ends at the maximum of all that was known and said |
| `SwimBeliefs.OrderDoesNotMatter` | src/dssd/swim.py:271-284 | so two nodes that hear the same records in any order, however often, believe the same incarnation and state, and the same address unless two records of one incarnation and state disagree on it |
| `SwimBeliefs.CommuteExactlyWhen` | src/dssd/swim.py:271-284 | two records lead to the same incarnation and state in either order if and only if none is a death, or the death is no older than the life, or both are the same death; and to the same address if and only if, besides, two that win with one incarnation and state are the same |
| `SwimBeliefs.SenderRecordWins` | src/dssd/swim.py:252-253 | the record a message carries of its sender replaces any outdone rumour at a peer, of death too |
| `SwimRuns.RumoursStayRefuted` | src/dssd/swim.py:271-278 | over a whole life a node's incarnation exceeds that of every rumour about itself it ever heard, so its messages clear it wherever the rumour is still held |
| `SwimRuns.IncarnationGrows` | src/dssd/swim.py:271-278 | a node's own incarnation never decreases |
| `SwimRuns.SuspectAllAlong` | src/dssd/swim.py:238-248 | a timer that declares death proves that the very record it was set for stood unchanged since, unless a death was reported in between |
| `SwimRuns.OldTimerCanKill` | src/dssd/swim.py:246-248 | with a death in between, the timer of a suspicion that was refuted by a higher incarnation kills the member on a later suspicion without a wait of its own |
| `SwimTimers.SuspicionIsTimed` | src/dssd/swim.py:238-244 | over a whole life: whoever turns from not suspect to suspect has a timer running for that very record, always after a failed probe, and after a message if it reports the member once |
| `SwimTimers.TimedExactlyWhen` | src/dssd/swim.py:238-244 | after any message a suspicion's timer runs if and only if it ran before or some report in it turned a belief that was no suspicion into this one |
| `SwimTimers.SecondSuspicionIsNot` | src/dssd/swim.py:243-244 | two suspicions of one member in one message leave the second without a timer |
| `SwimTimers.TimerStays` | src/dssd/swim.py:246-248 | a timer, once started, runs until it fires |
| `SwimTimers.SuspectCanDie` | src/dssd/swim.py:238-248 | so a suspect whose record stays can be declared dead at any time by its timer, and the firing does it |
| `SwimTimers.SilenceIsSuspected` | src/dssd/swim.py:228-236 | a member believed alive that does not answer a probe becomes suspect at its incarnation, with a timer |
| `SwimRuns.RecordGrows` | src/dssd/swim.py:228-248 | until a death is reported, a belief is replaced only by one above it |
| `SwimRuns.AlwaysValid` | src/dssd/swim.py:238-244 | always: the node does not list itself, every queued record is its present belief, ids are queued once with sends left, requests have numbers of their own |
| `SwimRuns.GossipIsBelief` | src/dssd/swim.py:286-293 | a message carries up to eight different records, each the present belief, none sent more often than one left behind |
| `SwimQueue.DueIsLeastSent` | src/dssd/swim.py:288 | sorting and slicing pick distinct least-sent records, eight or all there are |
| `SwimQueue.SendsAddUp` | src/dssd/swim.py:289-292 | for messages in a row with nothing new queued, sends made and sends left add up to five for each record |
| `SwimQueue.SentExactly` | src/dssd/swim.py:289-292 | with nothing new queued, a record is sent exactly as often as it had sends left |
| `SwimGossip.SendsAddUpOverLife` | src/dssd/swim.py:238-244 | over a whole life, whatever else is gossiped, heard, suspected or refuted meanwhile: as long as no new record of its id is queued, the messages that carried a record and its sends left add up to its sends left at the start |
| `SwimGossip.FiveTimes` | src/dssd/swim.py:286-293 | so a record just queued is carried by at most five messages, and by exactly five if and only if it has left the queue |
| `SwimGossip.DrainsOverLife` | src/dssd/swim.py:286-293 | over a whole life: while nothing new is queued, n queued records are gone once floor(5n/8)+5 messages went out |
| `SwimNews.NewsIsToldFiveTimes` | src/dssd/swim.py:238-244 | over a whole life: every new belief about anybody, the refutation of a rumour about itself included, is queued at once, and unless a newer one comes up exactly five messages carry it by the time it leaves the queue |
| `SwimNews.NewcomerKnowsAll` | src/dssd/swim.py:252-284 | a node that joins believes what the node that answered it believes, of everybody but the dead, whatever the order of the answer |
| `SwimNews.JoinIsAnswered` | src/dssd/swim.py:252-269 | a newcomer is answered with everything known, itself among it, and is queued for gossip |
| `SwimNews.PingRoundTrip` | src/dssd/swim.py:252-269 | a ping is answered under its number to whoever sent it, which wakes the one that waits for it and clears what the answer outdoes |
| `SwimNews.WokenExactlyWhen` | src/dssd/swim.py:176-180 | over a whole life: a waiting request is woken if and only if an answer with its number has come |
| `SwimNews.EndedIsForgotten` | src/dssd/swim.py:176-190 | a request that has ended is forgotten for good, and no later one takes its number |
| `SwimQueue.DrainsInTime` | src/dssd/swim.py:286-293 | with nothing new to say, n records are gone after floor(5n/8)+5 messages |
| `SwimNode.Node.Set` | src/dssd/swim.py:238-244 | records, queues and starts a timer only for a new suspicion |
| `SwimNode.Node.SetBroadcast` | src/dssd/swim.py:242 | assigning to a queued id keeps its place in the table and resets its count |
| `SwimNode.Node.Mark` | src/dssd/swim.py:228-236 | a change of state happens only from the expected state |
| `SwimNode.Node.FireTimer` | src/dssd/swim.py:246-248 | a timer kills only at the incarnation it was set for |
| `SwimNode.Node.Resurrect` | src/dssd/swim.py:222-226 | an answer from a member believed dead raises its incarnation for it |
| `SwimNode.Node.Merge` | src/dssd/swim.py:271-284 | one piece of gossip, refutation included |
| `SwimNode.Node.TakeBroadcasts` | src/dssd/swim.py:286-293 | the loop over the due records leaves the specified queue and returns them in order |
| `SwimNode.Node.Handle` | src/dssd/swim.py:252-269 | a message is merged, sender first, before it is answered |
| `SwimNode.Node.Request` | src/dssd/swim.py:176-180 | a request gets a fresh number to wait under |
| `BarrierRuns.AlwaysConsistent` | src/dssd/diloco/barrier.py:38-65 | always: the timer runs if and only if something is pending, no round averaged nothing, round number and state are those of exactly that many rounds |
| `BarrierRuns.NobodyIsStranded` | src/dssd/diloco/barrier.py:43-54 | a waiting caller can go on, or the timer runs and its firing lets the caller go on |
| `BarrierRuns.AnswerIsARound` | src/dssd/diloco/barrier.py:48-49 | a caller gets a later round than it came in, with the state after exactly the rounds really averaged so far, and its worker's submission went into the round it came in |
| `BarrierRuns.OwnRoundExactlyWhen` | src/dssd/diloco/barrier.py:48-49 | a waiting caller gets its own round if and only if, of the steps before it wakes, only one closed a round |
| `BarrierRuns.SameRoundExactlyWhen` | src/dssd/diloco/barrier.py:43-65 | the round is the same at two moments if and only if no step in between closes one, by a submission that completes it or a timeout with something pending; the same round means the same state |
| `BarrierRuns.SameAnswerExactlyWhen` | src/dssd/diloco/barrier.py:43-65 | two callers are told the same round and state if and only if no step between their wake-ups closes a round |
| `BarrierRuns.AnswersCanDiffer` | src/dssd/diloco/barrier.py:48-49 | two callers of one round are answered with different rounds |
| `BarrierNotes.ClosesExactlyWhen` | src/dssd/diloco/barrier.py:38-47 | over runs: a submission closes a round if and only if everybody in the list of the alive, the submitter included, has submitted since the last round closed; the round averages the last submission of each who did, and no other |
| `BarrierNotes.TimeoutCloses` | src/dssd/diloco/barrier.py:51-65 | the timeout closes a round with the last submissions since the round before, at least one, and nothing but submissions and timeouts closes rounds |
| `Barrier.RoundBarrier.Submit` | src/dssd/diloco/barrier.py:38-47 | up to its wait `submit` records, then closes the round or arms the timer, and waits for the event of the round it joined |
| `Barrier.RoundBarrier.FinishAfterTimeout` | src/dssd/diloco/barrier.py:51-55 | the timer closes the round with whatever is pending |
| `Barrier.RoundBarrier.FinishRound` | src/dssd/diloco/barrier.py:57-65 | one outer step, the next round number, an empty round with a fresh event and no timer |

## Left out

- Time: timeouts, heartbeats and deadlines are free choices of the next step, so nothing is said about how soon a leader is elected or a wait ends; `RaftProgress` shows that it can be, not that it will.
- gRPC, UDP, protobuf and JSON: messages and snapshots are values; a command is either the empty no-op or a snapshot.
- Integer widths: terms and indices are unbounded, the wire format has 64 bits for them.
- Floating point: positions, velocities and grid sizes are reals, so rounding at a region's edge is not covered.
- Shard ids are pairs of row and column instead of the text made of them.
- Losing a whole process: `start` keeps term, vote and log, as the source does; nodes do not lose them.
- Changing the members of a Raft group: the source has no such operation.
- `playground.py`, the command line tools, the experiment runner, the web site and deployment.
- `Message.encode` and `decode`, `addr.py`: a message is its fields and an address is opaque, so what a malformed packet or address does is not covered.
- The DiLoCo worker and the optimizer's arithmetic: averaging and the outer step are one function of the optimizer's state and the submissions; leader changes between barriers are not modelled.
- Aliasing of agent objects: a registry is a map of values, and moving an agent in place is an update of its entry. A departure list that shares objects with a registry is not captured.
- The order in which a registry lists its agents is arbitrary; results hold for every order.
- Region.RegionServer.Tick: does not interleave other tasks at its awaits, because `ShardGroup` and `Conservation` treat these interleavings; a group only moves while the tick waits for it, and a new leader does not yet rewrite the log of a node deposed during the tick.
- RegionTick.TickLosesNothing: trusts the yes of another node, because what that node does is its own tick; a shard that another node leads is taken for what this node's copy of the log says.
- Conservation.NoAgentIsLost: takes a shard for its committed registry, changed by whole operations, because what leadership changes do to one shard is the subject of `ShardSafety`, `ShardLeadership` and `ShardSurvival`.
- ShardErasure.ForgetfulLeaderErases: starts with the replica leading and caught up, because whether a node that rolled back is elected again is up to the others; `ShardLossRun` has the elections of one such run.
- ShardLeadership.SnapshotsAreFaithful: speaks of one uninterrupted leadership, because across leaderships it is false (`ShardLossRun`).
- BarrierRuns.NobodyIsStranded: does not say that the event loop runs a task that can run.
- SwimTimers.SuspicionIsTimed: leaves out suspicions that replace another, because the source starts no timer for them.
- SWIM's choice of whom to probe and the answers of helpers are free: any member may turn out silent or answer at any time.
