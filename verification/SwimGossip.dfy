/** How often a record is gossiped over a member's whole life, with whatever other gossip
    arriving in between (src/dssd/swim.py). */
module SwimGossip {
  import opened SwimSpec
  import opened SwimQueue
  import opened SwimRuns

  /** The records that go out with the messages this event sends. */
  function Carried(s: State, e: Event): seq<Member> {
    match e
    case Gossip => TakeBroadcasts(s).1
    case Receive(msg) => if msg.kind == Ping then TakeBroadcasts(Learn(s, msg)).1 else []
    case _ => []
  }

  /** One of `updates` makes the node queue a new record of `id`. */
  predicate MergeQueues(s: State, updates: seq<Member>, id: MemberId) {
    updates != [] &&
    var front, u := updates[..|updates| - 1], updates[|updates| - 1];
    MergeQueues(s, front, id) || (u.id == id && Merge(MergeAll(s, front), u) != MergeAll(s, front))
  }

  /** The event makes the node queue a new record of `id`. */
  predicate Queues(s: State, e: Event, id: MemberId) {
    match e
    case Receive(msg) => (msg.sender.id == id && Merge(s, msg.sender) != s) || MergeQueues(Merge(s, msg.sender), msg.updates, id)
    case TimerFires(m) => m.id == id && FireTimer(s, m).members != s.members
    case NoAck(other) => other == id && ProbeFailed(s, other) != s
    case DeadAnswers(other) => other == id && Resurrect(s, other) != s
    case _ => false
  }

  // ---------- the queue between two messages ----------

  /** The two queues say the same about `id`. */
  ghost predicate SameAbout(q: Queue, q': Queue, id: MemberId) {
    forall e: Queued | e.member.id == id :: e in q <==> e in q'
  }

  lemma EnqueueOther(q: Queue, m: Member, id: MemberId)
    requires DistinctIds(q) && m.id != id
    ensures SameAbout(q, Enqueue(q, m), id)
  {
    EnqueueHas(q, m);
  }

  lemma MergeSame(s: State, u: Member, id: MemberId)
    requires Valid(s) && (u.id == id ==> Merge(s, u) == s)
    ensures SameAbout(s.queue, Merge(s, u).queue, id)
  {
    if u.id != id {
      if u.id == s.id {
        EnqueueOther(s.queue, Me(s.(incarnation := u.incarnation + 1)), id);
      } else {
        EnqueueOther(s.queue, u, id);
      }
    }
  }

  lemma {:induction false} MergeAllSame(s: State, updates: seq<Member>, id: MemberId)
    requires Valid(s) && !MergeQueues(s, updates, id)
    ensures SameAbout(s.queue, MergeAll(s, updates).queue, id)
  {
    if updates != [] {
      var front := updates[..|updates| - 1];
      MergeAllSame(s, front, id);
      MergeAllKeeps(s, front);
      MergeSame(MergeAll(s, front), updates[|updates| - 1], id);
    }
  }

  lemma LearnSame(s: State, msg: Message, id: MemberId)
    requires Valid(s) && !Queues(s, Receive(msg), id)
    ensures SameAbout(s.queue, Learn(s, msg).queue, id) && Valid(Learn(s, msg))
  {
    MergeSame(s, msg.sender, id);
    MergeKeeps(s, msg.sender);
    MergeAllSame(Merge(s, msg.sender), msg.updates, id);
    MergeAllKeeps(Merge(s, msg.sender), msg.updates);
  }

  /** Other events than messages touch the queue only where they queue a record. */
  lemma QuietSame(s: State, e: Event, id: MemberId)
    requires Valid(s) && Possible(s, e) && !Queues(s, e, id) && !e.Receive? && !e.Gossip?
    ensures SameAbout(s.queue, After(s, e).queue, id)
  {
    match e
    case TimerFires(m) =>
      if m.id in s.members { EnqueueOther'(s.queue, s.members[m.id].(state := Dead), m.id, id); }
    case NoAck(other) =>
      if other in s.members { EnqueueOther'(s.queue, s.members[other].(state := Suspect), other, id); }
    case DeadAnswers(other) =>
      if other in s.members {
        EnqueueOther'(s.queue, s.members[other].(state := Alive, incarnation := s.members[other].incarnation + 1), other, id);
      }
    case _ =>
  }

  lemma EnqueueOther'(q: Queue, m: Member, other: MemberId, id: MemberId)
    requires DistinctIds(q) && m.id == other
    ensures other != id ==> SameAbout(q, Enqueue(q, m), id)
  {
    EnqueueHas(q, m);
  }

  // ---------- one event ----------

  /** `q` is what one message that may have carried `e` leaves of it. */
  predicate Leaves(q: Queue, e: Queued, carried: bool) {
    var sent := e.sent + if carried then 1 else 0;
    if sent < MAX_TRANSMITS then Queued(e.member, sent) in q else sent == MAX_TRANSMITS && e.member.id !in Ids(q)
  }

  /** What is left of `e` after one event that does not queue its id anew. */
  lemma EventSends(s: State, ev: Event, e: Queued)
    requires Valid(s) && Possible(s, ev) && e in s.queue && !Queues(s, ev, e.member.id)
    ensures Leaves(After(s, ev).queue, e, e.member in Carried(s, ev))
  {
    if ev.Gossip? {
      TakeSends(s, e);
    } else if ev.Receive? {
      ReceiveSends(s, ev.msg, e);
    } else {
      QuietSame(s, ev, e.member.id);
    }
  }

  lemma ReceiveSends(s: State, msg: Message, e: Queued)
    requires Valid(s) && e in s.queue && !Queues(s, Receive(msg), e.member.id)
    ensures Leaves(After(s, Receive(msg)).queue, e, e.member in Carried(s, Receive(msg)))
  {
    LearnSame(s, msg, e.member.id);
    if msg.kind == Ping {
      TakeSends(Learn(s, msg), e);
    }
  }

  lemma CarriesItsId(q: Queue, e: Queued)
    requires DistinctIds(q) && e in q
    ensures e.member in Records(Due(q)) <==> e.member.id in Ids(Due(q))
  {
    DueIsLeastSent(q);
    var due := Due(q);
    if e.member in Records(due) {
      var i :| 0 <= i < |due| && Records(due)[i] == e.member;
      assert due[i] in due;
    }
    if e.member.id in Ids(due) {
      var d :| d in due && d.member.id == e.member.id;
      SameId(q, d, e);
      var i :| 0 <= i < |due| && due[i] == d;
      assert Records(due)[i] == e.member;
    }
  }

  lemma TakeSends(s: State, e: Queued)
    requires DistinctIds(s.queue) && SendsLeft(s.queue) && e in s.queue
    ensures Leaves(TakeBroadcasts(s).0.queue, e, e.member in TakeBroadcasts(s).1)
  {
    CarriesItsId(s.queue, e);
    OneCall(s.queue, e, e.sent + if e.member.id in Ids(Due(s.queue)) then 1 else 0);
  }

  /** What is not queued is neither sent nor brought back by an event that does not queue it. */
  lemma EventLeavesOut(s: State, ev: Event, m: Member)
    requires Valid(s) && Possible(s, ev) && m.id !in Ids(s.queue) && !Queues(s, ev, m.id)
    ensures m.id !in Ids(After(s, ev).queue) && m !in Carried(s, ev)
  {
    if ev.Gossip? {
      TakeLeavesOut(s, m);
    } else if ev.Receive? {
      LearnSame(s, ev.msg, m.id);
      NotAbout(s.queue, Learn(s, ev.msg).queue, m.id);
      if ev.msg.kind == Ping {
        TakeLeavesOut(Learn(s, ev.msg), m);
      }
    } else {
      QuietSame(s, ev, m.id);
      NotAbout(s.queue, After(s, ev).queue, m.id);
    }
  }

  lemma NotAbout(q: Queue, q': Queue, id: MemberId)
    requires SameAbout(q, q', id) && id !in Ids(q)
    ensures id !in Ids(q')
  {
    assert forall e | e in q' :: e.member.id == id ==> e in q;
  }

  lemma TakeLeavesOut(s: State, m: Member)
    requires DistinctIds(s.queue) && SendsLeft(s.queue) && m.id !in Ids(s.queue)
    ensures m.id !in Ids(TakeBroadcasts(s).0.queue) && m !in TakeBroadcasts(s).1
  {
    DueIsLeastSent(s.queue);
    TakeKeeps(s.queue);
    var due := Due(s.queue);
    assert forall i | 0 <= i < |due| :: due[i] in due && Records(due)[i] == due[i].member;
  }

  // ---------- when nothing is queued ----------

  /** Event `k` queues no new record of `id`. */
  ghost predicate QuietAt(states: seq<State>, events: seq<Event>, k: nat, id: MemberId)
    requires k < |events| && |states| == |events| + 1
  {
    !Queues(states[k], events[k], id)
  }

  ghost predicate QuietAbout(states: seq<State>, events: seq<Event>, j: nat, k: nat, id: MemberId)
    requires j <= k <= |events| && |states| == |events| + 1
  {
    forall i: nat {:trigger QuietAt(states, events, i, id)} | j <= i < k :: QuietAt(states, events, i, id)
  }

  // ---------- counting ----------

  function Count(hit: nat -> bool, j: nat, k: nat): nat
    requires j <= k
  {
    if j == k then 0 else Count(hit, j, k - 1) + if hit(k - 1) then 1 else 0
  }

  /** From one queue to the next `e` is accounted for. */
  ghost predicate GoesOn(q: Queue, q': Queue, e: Queued, carried: bool) {
    forall n: nat | AddsUp(q, e, n) :: AddsUp(q', e, n + if carried then 1 else 0)
  }

  /** From moment `i` to the next, the queue goes on accounting for `e`. */
  ghost predicate Accounts(q: nat -> Queue, hit: nat -> bool, e: Queued, i: nat) {
    GoesOn(q(i), q(i + 1), e, hit(i))
  }

  lemma {:induction false} CountAddsUp(q: nat -> Queue, hit: nat -> bool, j: nat, k: nat, e: Queued)
    requires j <= k && AddsUp(q(j), e, 0)
    requires forall i {:trigger Accounts(q, hit, e, i)} | j <= i < k :: Accounts(q, hit, e, i)
    ensures AddsUp(q(k), e, Count(hit, j, k))
    decreases k
  {
    if j < k {
      CountAddsUp(q, hit, j, k - 1, e);
      assert Accounts(q, hit, e, k - 1);
    }
  }

  // ---------- over a life ----------

  /** Whether a message sent in event `k` carries the record `m`. */
  predicate CarriedAt(states: seq<State>, events: seq<Event>, k: nat, m: Member) {
    k < |events| && k < |states| && m in Carried(states[k], events[k])
  }

  /** How many events from `j` to `k` send a message that carries the record `m`. */
  function Messages(states: seq<State>, events: seq<Event>, j: nat, k: nat, m: Member): nat
    requires j <= k
  {
    Count(Carries(states, events, m), j, k)
  }

  function Carries(states: seq<State>, events: seq<Event>, m: Member): nat -> bool {
    (i: nat) => CarriedAt(states, events, i, m)
  }

  function QueueAt(states: seq<State>): nat -> Queue {
    (i: nat) => if i < |states| then states[i].queue else []
  }

  /** The event leads from one good state to another. */
  ghost predicate Moves(s: State, ev: Event, s': State) {
    Valid(s) && Possible(s, ev) && s' == After(s, ev)
  }

  lemma Moment(states: seq<State>, events: seq<Event>, k: nat)
    requires Run(states, events) && k < |events|
    ensures Moves(states[k], events[k], states[k + 1])
  {
    AlwaysValid(states, events, k);
    assert EventAt(states, events, k);
  }

  lemma StillAddsUp(s: State, ev: Event, s': State, e: Queued, n: nat)
    requires Moves(s, ev, s') && !Queues(s, ev, e.member.id) && AddsUp(s.queue, e, n)
    ensures AddsUp(s'.queue, e, n + if e.member in Carried(s, ev) then 1 else 0)
  {
    if e.member.id in Ids(s.queue) {
      EventSends(s, ev, Queued(e.member, e.sent + n));
      LeavesAddsUp(s'.queue, e, n, e.member in Carried(s, ev));
    } else {
      EventLeavesOut(s, ev, e.member);
    }
  }

  lemma LeavesAddsUp(q: Queue, e: Queued, n: nat, carried: bool)
    requires e.sent + n < MAX_TRANSMITS && Leaves(q, Queued(e.member, e.sent + n), carried)
    ensures AddsUp(q, e, n + if carried then 1 else 0)
  {}

  /** Sends are conserved, whatever else is gossiped, heard or decided meanwhile: as long as
      no new record of its id is queued, the messages that carried a record and the sends it
      has left add up. So it is sent five times at most, and five times exactly once it is gone. */
  lemma SendsAddUpOverLife(states: seq<State>, events: seq<Event>, j: nat, k: nat, e: Queued)
    requires Run(states, events) && j <= k <= |events| && e in states[j].queue && QuietAbout(states, events, j, k, e.member.id)
    ensures AddsUp(states[k].queue, e, Messages(states, events, j, k, e.member))
  {
    var q, hit := QueueAt(states), Carries(states, events, e.member);
    StartsAddedUp(states, events, j, e);
    forall i | j <= i < k ensures Accounts(q, hit, e, i) {
      assert QuietAt(states, events, i, e.member.id);
      MomentAccounts(states, events, i, e);
    }
    assert AddsUp(q(j), e, 0);
    CountAddsUp(q, hit, j, k, e);
  }

  lemma MomentAccounts(states: seq<State>, events: seq<Event>, k: nat, e: Queued)
    requires Run(states, events) && k < |events| && QuietAt(states, events, k, e.member.id)
    ensures Accounts(QueueAt(states), Carries(states, events, e.member), e, k)
  {
    Moment(states, events, k);
    EventGoesOn(states[k], events[k], states[k + 1], e);
  }

  lemma EventGoesOn(s: State, ev: Event, s': State, e: Queued)
    requires Moves(s, ev, s') && !Queues(s, ev, e.member.id)
    ensures GoesOn(s.queue, s'.queue, e, e.member in Carried(s, ev))
  {
    forall n: nat | AddsUp(s.queue, e, n)
      ensures AddsUp(s'.queue, e, n + if e.member in Carried(s, ev) then 1 else 0)
    {
      StillAddsUp(s, ev, s', e, n);
    }
  }

  lemma StartsAddedUp(states: seq<State>, events: seq<Event>, j: nat, e: Queued)
    requires Run(states, events) && j <= |events| && e in states[j].queue
    ensures AddsUp(states[j].queue, e, 0)
  {
    AlwaysValid(states, events, j);
    assert e == Queued(e.member, e.sent + 0);
  }

  /** A record that was just queued. */
  lemma FiveTimes(states: seq<State>, events: seq<Event>, j: nat, k: nat, m: Member)
    requires Run(states, events) && j <= k <= |events| && Queued(m, 0) in states[j].queue
    requires QuietAbout(states, events, j, k, m.id)
    ensures Messages(states, events, j, k, m) <= MAX_TRANSMITS
    ensures Messages(states, events, j, k, m) == MAX_TRANSMITS <==> m.id !in Ids(states[k].queue)
  {
    SendsAddUpOverLife(states, events, j, k, Queued(m, 0));
  }

  // ---------- when there is nothing new to say ----------

  predicate SendsGossip(e: Event) {
    e.Gossip? || (e.Receive? && e.msg.kind == Ping)
  }

  function GossipAt(events: seq<Event>): nat -> bool {
    (i: nat) => i < |events| && SendsGossip(events[i])
  }

  /** Event `k` queues nothing. */
  ghost predicate SilentAt(states: seq<State>, events: seq<Event>, k: nat)
    requires k < |events| && |states| == |events| + 1
  {
    forall id :: !Queues(states[k], events[k], id)
  }

  lemma {:induction false} MergeAllNothing(s: State, updates: seq<Member>)
    requires forall id :: !MergeQueues(s, updates, id)
    ensures MergeAll(s, updates) == s
  {
    if updates != [] {
      var front, u := updates[..|updates| - 1], updates[|updates| - 1];
      forall id ensures !MergeQueues(s, front, id) {
        assert !MergeQueues(s, updates, id);
      }
      MergeAllNothing(s, front);
      assert !MergeQueues(s, updates, u.id);
    }
  }

  lemma LearnsNothing(s: State, msg: Message)
    requires forall id :: !Queues(s, Receive(msg), id)
    ensures Learn(s, msg) == s
  {
    assert !Queues(s, Receive(msg), msg.sender.id);
    forall id ensures !MergeQueues(Merge(s, msg.sender), msg.updates, id) {
      assert !Queues(s, Receive(msg), id);
    }
    MergeAllNothing(s, msg.updates);
  }

  /** Such an event sends from the queue or leaves it. */
  lemma SilentEvent(s: State, e: Event)
    requires Valid(s) && Possible(s, e) && forall id :: !Queues(s, e, id)
    ensures After(s, e).queue == if SendsGossip(e) then TakeQueue(s.queue) else s.queue
  {
    match e
    case Receive(msg) => LearnsNothing(s, msg);
    case TimerFires(m) =>
      assert !Queues(s, e, m.id);
      assert m.id in s.members ==> m.id in FireTimer(s, m).members && FireTimer(s, m).members[m.id] == s.members[m.id];
    case NoAck(other) => assert !Queues(s, e, other);
    case DeadAnswers(other) => assert !Queues(s, e, other);
    case _ =>
  }

  lemma {:induction false} OneMoreCall(q: Queue, n: nat)
    ensures AfterCalls(q, n + 1) == TakeQueue(AfterCalls(q, n))
    decreases n
  {
    if n > 0 {
      OneMoreCall(TakeQueue(q), n - 1);
    }
  }

  lemma {:induction false} QueueAfterMessages(states: seq<State>, events: seq<Event>, j: nat, k: nat)
    requires Run(states, events) && j <= k <= |events|
    requires forall i: nat {:trigger SilentAt(states, events, i)} | j <= i < k :: SilentAt(states, events, i)
    ensures states[k].queue == AfterCalls(states[j].queue, Count(GossipAt(events), j, k))
    decreases k
  {
    if j < k {
      QueueAfterMessages(states, events, j, k - 1);
      assert SilentAt(states, events, k - 1);
      SilentMoment(states, events, k - 1);
      OneMoreCall(states[j].queue, Count(GossipAt(events), j, k - 1));
    }
  }

  lemma SilentMoment(states: seq<State>, events: seq<Event>, k: nat)
    requires Run(states, events) && k < |events| && SilentAt(states, events, k)
    ensures states[k + 1].queue == if GossipAt(events)(k) then TakeQueue(states[k].queue) else states[k].queue
  {
    Moment(states, events, k);
    SilentEvent(states[k], events[k]);
  }

  /** In every life: with nothing new to say, a queue of n records is empty once floor(5n/8)+5 messages went out. */
  lemma DrainsOverLife(states: seq<State>, events: seq<Event>, j: nat, k: nat)
    requires Run(states, events) && j <= k <= |events|
    requires forall i: nat {:trigger SilentAt(states, events, i)} | j <= i < k :: SilentAt(states, events, i)
    requires Count(GossipAt(events), j, k) >= 5 * |states[j].queue| / 8 + 5
    ensures states[k].queue == []
  {
    QueueAfterMessages(states, events, j, k);
    AlwaysValid(states, events, j);
    SendsToGoBounds(states[j].queue);
    DrainsBySends(states[j].queue, Count(GossipAt(events), j, k));
  }
}
