/** What a member passes on, tells a newcomer and hears back, over its whole life (src/dssd/swim.py). */
module SwimNews {
  import opened SwimSpec
  import opened SwimQueue
  import opened SwimBeliefs
  import opened SwimRuns
  import opened SwimGossip
  import opened SwimTimers

  // ---------- a change of mind is passed on ----------

  /** What the node holds true of `id`, itself included. */
  predicate Knows(s: State, id: MemberId) {
    id == s.id || id in s.members
  }

  function Belief(s: State, id: MemberId): Member
    requires Knows(s, id)
  {
    if id == s.id then Me(s) else s.members[id]
  }

  /** From `s` to `s'` the belief about `id` is new. */
  predicate News(s: State, s': State, id: MemberId) {
    Knows(s', id) && (!Knows(s, id) || Belief(s', id) != Belief(s, id))
  }

  /** If so, it is queued and was not sent yet. */
  ghost predicate NewsQueued(s: State, s': State, id: MemberId) {
    News(s, s', id) ==> Queued(Belief(s', id), 0) in s'.queue
  }

  lemma RefutationQueues(s: State, u: Member, id: MemberId)
    requires Valid(s) && u.id == s.id
    ensures NewsQueued(s, Merge(s, u), id) && (Knows(s, id) ==> Knows(Merge(s, u), id))
    ensures !News(s, Merge(s, u), id) ==> SameAbout(s.queue, Merge(s, u).queue, id)
  {
    EnqueueHas(s.queue, Me(s.(incarnation := u.incarnation + 1)));
  }

  lemma RecordQueues(s: State, u: Member, id: MemberId)
    requires Valid(s) && u.id != s.id
    ensures NewsQueued(s, Merge(s, u), id) && (Knows(s, id) ==> Knows(Merge(s, u), id))
    ensures !News(s, Merge(s, u), id) ==> SameAbout(s.queue, Merge(s, u).queue, id)
  {
    EnqueueHas(s.queue, u);
  }

  lemma {:induction false} MergeAllQueues(s: State, us: seq<Member>, id: MemberId)
    requires Valid(s)
    ensures NewsQueued(s, MergeAll(s, us), id) && (Knows(s, id) ==> Knows(MergeAll(s, us), id))
  {
    if us != [] {
      var front := us[..|us| - 1];
      MergeAllQueues(s, front, id);
      MergeAllKeeps(s, front);
      if us[|us| - 1].id == s.id {
        RefutationQueues(MergeAll(s, front), us[|us| - 1], id);
      } else {
        RecordQueues(MergeAll(s, front), us[|us| - 1], id);
      }
      MergeKeeps(MergeAll(s, front), us[|us| - 1]);
    }
  }

  lemma SetQueues(s: State, m: Member, id: MemberId)
    requires Valid(s) && m.id != s.id
    ensures NewsQueued(s, Set(s, m), id)
  {
    EnqueueHas(s.queue, m);
  }

  lemma LearnQueues(s: State, msg: Message, id: MemberId)
    requires Valid(s)
    ensures NewsQueued(s, Learn(s, msg), id) && Valid(Learn(s, msg))
  {
    LearnsReports(s, msg);
    MergeAllQueues(s, Reports(msg), id);
    MergeAllKeeps(s, Reports(msg));
  }

  lemma MarkQueues(s: State, other: MemberId, to': Health, from': Health, id: MemberId)
    requires Valid(s)
    ensures NewsQueued(s, Mark(s, other, to', from'), id)
  {
    if other in s.members {
      SetQueues(s, s.members[other].(state := to'), id);
    }
  }

  lemma TimerQueues(s: State, m: Member, id: MemberId)
    requires Valid(s) && m in s.timers
    ensures NewsQueued(s, FireTimer(s, m), id)
  {
    MarkQueues(s.(timers := s.timers - multiset{m}), m.id, Dead, Suspect, id);
  }

  lemma ResurrectQueues(s: State, other: MemberId, id: MemberId)
    requires Valid(s)
    ensures NewsQueued(s, Resurrect(s, other), id)
  {
    if other in s.members {
      SetQueues(s, s.members[other].(state := Alive, incarnation := s.members[other].incarnation + 1), id);
    }
  }

  lemma ProbeQueues(s: State, e: Event, id: MemberId)
    requires Valid(s) && Possible(s, e) && !e.Receive?
    ensures NewsQueued(s, After(s, e), id)
  {
    match e
    case TimerFires(m) => TimerQueues(s, m, id);
    case NoAck(other) => MarkQueues(s, other, Suspect, Alive, id);
    case DeadAnswers(other) => ResurrectQueues(s, other, id);
    case _ =>
  }

  /** After the event, what is new is queued, counting the message that the event itself may have sent. */
  lemma EventQueuesNews(s: State, e: Event, id: MemberId)
    requires Valid(s) && Possible(s, e) && News(s, After(s, e), id)
    ensures Leaves(After(s, e).queue, Queued(Belief(After(s, e), id), 0), Belief(After(s, e), id) in Carried(s, e))
  {
    if e.Receive? {
      LearnQueues(s, e.msg, id);
      if e.msg.kind == Ping {
        TakeSends(Learn(s, e.msg), Queued(Belief(After(s, e), id), 0));
      }
    } else {
      ProbeQueues(s, e, id);
    }
  }

  /** Over a whole life: every new belief about anybody, the node itself included, is queued at
      once, and unless a newer one about the same member comes up, at most five messages carry it,
      and exactly five once it has left the queue. */
  lemma NewsIsToldFiveTimes(states: seq<State>, events: seq<Event>, j: nat, k: nat, id: MemberId)
    requires Run(states, events) && j < k <= |events| && News(states[j], states[j + 1], id)
    requires QuietAbout(states, events, j + 1, k, id)
    ensures Messages(states, events, j, k, Belief(states[j + 1], id)) <= 5
    ensures Messages(states, events, j, k, Belief(states[j + 1], id)) == 5 <==> id !in Ids(states[k].queue)
  {
    var first := NewsIsQueued(states, events, j, id);
    SendsAddUpOverLife(states, events, j + 1, k, Queued(Belief(states[j + 1], id), first));
    CountFirst(Carries(states, events, Belief(states[j + 1], id)), j, k);
  }

  /** Right after the event it is queued, sent once already if the event's own message carried it. */
  lemma NewsIsQueued(states: seq<State>, events: seq<Event>, j: nat, id: MemberId) returns (first: nat)
    requires Run(states, events) && j < |events| && News(states[j], states[j + 1], id)
    ensures Queued(Belief(states[j + 1], id), first) in states[j + 1].queue && Belief(states[j + 1], id).id == id
    ensures first == if CarriedAt(states, events, j, Belief(states[j + 1], id)) then 1 else 0
  {
    Moment(states, events, j);
    AlwaysValid(states, events, j + 1);
    EventQueuesNews(states[j], events[j], id);
    first := if Belief(states[j + 1], id) in Carried(states[j], events[j]) then 1 else 0;
  }

  lemma {:induction false} CountFirst(hit: nat -> bool, j: nat, k: nat)
    requires j < k
    ensures Count(hit, j, k) == (if hit(j) then 1 else 0) + Count(hit, j + 1, k)
    decreases k
  {
    if j + 1 < k {
      CountFirst(hit, j, k - 1);
    }
  }

  // ---------- a newcomer ----------

  lemma OnePlace(us: seq<Member>, id: MemberId)
    requires forall i, j | 0 <= i < j < |us| :: us[i].id != us[j].id
    ensures ReportedOnce(us, id)
  {}

  /** `us` lists what `s` knows of others, each once. */
  ghost predicate ListsAll(s: State, us: seq<Member>) {
    (forall m :: m in us <==> m in s.members.Values) && forall x, y | 0 <= x < y < |us| :: us[x].id != us[y].id
  }

  lemma ListedIsHeard(s: State, j: State, us: seq<Member>, id: MemberId)
    requires Valid(s) && ListsAll(s, us) && id in s.members && id != j.id && id !in j.members
    ensures var j' := MergeAll(j, us);
            (id in j'.members <==> Believes(s, id)) && (id in j'.members ==> j'.members[id] == s.members[id])
  {
    OnePlace(us, id);
    assert s.members[id] in s.members.Values;
    var i :| 0 <= i < |us| && us[i] == s.members[id];
    TheReport(j, us, id, i);
    NotReported(j, us[..i], id);
    MergeAllId(j, us[..i]);
  }

  lemma UnlistedIsNot(s: State, j: State, us: seq<Member>, id: MemberId)
    requires Valid(s) && ListsAll(s, us) && id !in s.members
    ensures var j' := MergeAll(j, us);
            (id in j'.members <==> id in j.members) && (id in j'.members ==> j'.members[id] == j.members[id])
  {
    forall i | 0 <= i < |us| ensures us[i].id != id {
      assert us[i] in us && us[i] in s.members.Values;
    }
    NotReported(j, us, id);
  }

  lemma AnswerKeepsMembers(s: State, msg: Message)
    requires msg.kind == JoinAck
    ensures After(s, Receive(msg)).members == MergeAll(Merge(s, msg.sender), msg.updates).members
  {}

  /** A node that joins and is answered by `s` believes what `s` believes, of everybody but the
      dead, whom it does not hear of, and the order of the answer does not matter. */
  lemma NewcomerKnowsAll(s: State, j: State, number: nat, us: seq<Member>, id: MemberId)
    requires Valid(s) && j == NewNode(j.id, j.addr) && j.id != s.id && id != j.id && ListsAll(s, us)
    ensures var j' := After(j, Receive(Message(JoinAck, number, Me(s), "", us)));
            && (id in j'.members <==> id == s.id || Believes(s, id))
            && (id in j'.members ==> j'.members[id] == Belief(s, id))
  {
    var j1 := Merge(j, Me(s));
    AnswerKeepsMembers(j, Message(JoinAck, number, Me(s), "", us));
    if id in s.members {
      ListedIsHeard(s, j1, us, id);
    } else {
      UnlistedIsNot(s, j1, us, id);
    }
  }

  /** And that is what a join is answered with; whoever joins is then among those the node knows. */
  lemma JoinIsAnswered(s: State, msg: Message)
    requires Valid(s) && msg.kind == Join && msg.sender.id != s.id && msg.updates == [] && msg.sender.id !in s.members && msg.sender.state == Alive
    ensures var (s', reply) := Handle(s, msg);
            && reply == JoinReply(msg.sender.addr, msg.number, Me(s), s'.members.Values)
            && s'.members == s.members[msg.sender.id := msg.sender]
            && Queued(msg.sender, 0) in s'.queue
  {
    EnqueueHas(s.queue, msg.sender);
  }

  // ---------- hearing back ----------

  /** The event is an answer to request `n`. */
  predicate Acks(e: Event, n: nat) {
    e.Receive? && (e.msg.kind == Ack || e.msg.kind == JoinAck) && e.msg.number == n
  }

  lemma {:induction false} MergeAllWaiters(s: State, us: seq<Member>)
    ensures MergeAll(s, us).waiters == s.waiters && MergeAll(s, us).requests == s.requests
  {
    if us != [] {
      MergeAllWaiters(s, us[..|us| - 1]);
    }
  }

  lemma EventWaiter(s: State, e: Event, n: nat)
    requires n in s.waiters && n <= s.requests && e != RequestEnds(n)
    ensures n in After(s, e).waiters && n <= After(s, e).requests
    ensures After(s, e).waiters[n] <==> s.waiters[n] || Acks(e, n)
  {
    if e.Receive? {
      MessageWaiter(s, e.msg, n);
    }
  }

  lemma MessageWaiter(s: State, msg: Message, n: nat)
    requires n in s.waiters && n <= s.requests
    ensures var s' := Handle(s, msg).0;
            && n in s'.waiters && n <= s'.requests
            && (s'.waiters[n] <==> s.waiters[n] || Acks(Receive(msg), n))
  {
    LearnsReports(s, msg);
    MergeAllWaiters(s, Reports(msg));
  }

  /** A ping and its answer: it goes to whoever asked, under the number of the request, wakes whoever
      waits for it there, and shows the answering node alive at its own incarnation. */
  lemma PingRoundTrip(asker: State, s: State, ping: Message, n: nat)
    requires Valid(asker) && asker.id != s.id && ping == Message(Ping, n, Me(asker), "", ping.updates)
    requires n in asker.waiters && n <= asker.requests
    ensures var (s', reply) := Handle(s, ping);
            && reply.AckReply? && reply.addr == asker.addr && reply.number == n && reply.me == Me(s')
            && var asker' := After(asker, Receive(Message(Ack, reply.number, reply.me, "", [])));
            && n in asker'.waiters && asker'.waiters[n]
            && (s.id in asker.members && Supersedes(reply.me, asker.members[s.id]) ==> asker'.members[s.id] == reply.me)
            && (s.id !in asker.members ==> s.id in asker'.members && asker'.members[s.id] == reply.me)
  {
    MergeAllId(Merge(s, ping.sender), ping.updates);
    var (s', reply) := Handle(s, ping);
    MessageWaiter(asker, Message(Ack, n, reply.me, "", []), n);
  }

  /** Whoever waits for an answer is woken exactly if one with the number of its request has come. */
  lemma {:induction false} WokenExactlyWhen(states: seq<State>, events: seq<Event>, j: nat, k: nat, n: nat)
    requires RunFrom(states, events) && j < k <= |events| && events[j] == SendRequest && n == states[j].requests + 1
    requires forall i | j < i < k :: events[i] != RequestEnds(n)
    ensures n in states[k].waiters && n <= states[k].requests
    ensures states[k].waiters[n] <==> exists i :: j < i < k && Acks(events[i], n)
    decreases k
  {
    assert EventAt(states, events, k - 1);
    if j + 1 < k {
      WokenExactlyWhen(states, events, j, k - 1, n);
      EventWaiter(states[k - 1], events[k - 1], n);
    }
  }

  lemma EventForgets(s: State, e: Event, n: nat)
    requires n !in s.waiters && n <= s.requests
    ensures n !in After(s, e).waiters && n <= After(s, e).requests
  {
    if e.Receive? {
      LearnsReports(s, e.msg);
      MergeAllWaiters(s, Reports(e.msg));
    }
  }

  /** A request that has ended is forgotten, and no later one takes its number, so an answer that
      comes too late wakes nobody. */
  lemma {:induction false} EndedIsForgotten(states: seq<State>, events: seq<Event>, j: nat, k: nat, n: nat)
    requires Run(states, events) && j < k <= |events| && events[j] == RequestEnds(n)
    ensures n !in states[k].waiters && n <= states[k].requests
    decreases k
  {
    assert EventAt(states, events, k - 1);
    if j + 1 < k {
      EndedIsForgotten(states, events, j, k - 1, n);
      EventForgets(states[k - 1], events[k - 1], n);
    } else {
      AlwaysValid(states, events, j);
    }
  }
}
