/** What holds of a SWIM member at every moment of its life (src/dssd/swim.py),
    over any messages, timers and probe results. */
module SwimRuns {
  import opened SwimSpec
  import opened SwimQueue
  import opened SwimBeliefs

  // ---------- what every event keeps ----------

  /** What the node itself holds true of `id`. */
  predicate IsBelief(s: State, m: Member) {
    if m.id == s.id then m == Me(s) else m.id in s.members && m == s.members[m.id]
  }

  ghost predicate Valid(s: State) {
    && s.id !in s.members
    && (forall id | id in s.members :: s.members[id].id == id)
    && DistinctIds(s.queue) && SendsLeft(s.queue)
    && (forall e | e in s.queue :: IsBelief(s, e.member))
    && (forall n | n in s.waiters :: 1 <= n <= s.requests)
    && (forall m | m in s.timers :: m.state == Suspect && m.id != s.id)
  }

  /** What is queued stays what is believed when the belief about `m.id` becomes `m`. */
  lemma EnqueueKeeps(s: State, s': State, m: Member)
    requires DistinctIds(s.queue) && SendsLeft(s.queue) && forall e | e in s.queue :: IsBelief(s, e.member)
    requires s'.queue == Enqueue(s.queue, m) && IsBelief(s', m)
    requires forall n: Member | n.id != m.id && IsBelief(s, n) :: IsBelief(s', n)
    ensures DistinctIds(s'.queue) && SendsLeft(s'.queue) && forall e | e in s'.queue :: IsBelief(s', e.member)
  {
    EnqueueHas(s.queue, m);
  }

  lemma SetKeeps(s: State, m: Member)
    requires Valid(s) && m.id != s.id
    ensures Valid(Set(s, m))
  {
    EnqueueKeeps(s, Set(s, m), m);
  }

  lemma MergeKeeps(s: State, u: Member)
    requires Valid(s)
    ensures Valid(Merge(s, u)) && Merge(s, u).id == s.id
  {
    if u.id == s.id {
      EnqueueKeeps(s, s.(incarnation := u.incarnation + 1, queue := Enqueue(s.queue, Me(s.(incarnation := u.incarnation + 1)))),
                   Me(s.(incarnation := u.incarnation + 1)));
    } else {
      SetKeeps(s, u);
    }
  }

  lemma {:induction false} MergeAllKeeps(s: State, updates: seq<Member>)
    requires Valid(s)
    ensures Valid(MergeAll(s, updates)) && MergeAll(s, updates).id == s.id
  {
    if updates != [] {
      MergeAllKeeps(s, updates[..|updates| - 1]);
      MergeKeeps(MergeAll(s, updates[..|updates| - 1]), updates[|updates| - 1]);
    }
  }

  lemma TakeKeepsValid(s: State)
    requires Valid(s)
    ensures Valid(TakeBroadcasts(s).0) && TakeBroadcasts(s).0.id == s.id
  {
    TakeKeeps(s.queue);
  }

  lemma AnswerKeeps(s: State, msg: Message)
    requires Valid(s)
    ensures Valid(Answer(s, msg).0) && Answer(s, msg).0.id == s.id
  {
    TakeKeepsValid(s);
  }

  lemma ReceiveKeeps(s: State, msg: Message)
    requires Valid(s)
    ensures Valid(Handle(s, msg).0) && Handle(s, msg).0.id == s.id
  {
    MergeKeeps(s, msg.sender);
    MergeAllKeeps(Merge(s, msg.sender), msg.updates);
    AnswerKeeps(Learn(s, msg), msg);
  }

  lemma FireTimerKeeps(s: State, m: Member)
    requires Valid(s) && m in s.timers
    ensures Valid(FireTimer(s, m)) && FireTimer(s, m).id == s.id
  {
    var s1 := s.(timers := s.timers - multiset{m});
    MarkKeeps(s1, m.id, Dead, Suspect);
  }

  lemma MarkKeeps(s: State, id: MemberId, to': Health, from': Health)
    requires Valid(s)
    ensures Valid(Mark(s, id, to', from')) && Mark(s, id, to', from').id == s.id
  {
    if id in s.members {
      SetKeeps(s, s.members[id].(state := to'));
    }
  }

  lemma ResurrectKeeps(s: State, id: MemberId)
    requires Valid(s)
    ensures Valid(Resurrect(s, id)) && Resurrect(s, id).id == s.id
  {
    if id in s.members {
      SetKeeps(s, s.members[id].(state := Alive, incarnation := s.members[id].incarnation + 1));
    }
  }

  lemma EventKeeps(s: State, e: Event)
    requires Valid(s) && Possible(s, e)
    ensures Valid(After(s, e)) && After(s, e).id == s.id
  {
    match e
    case Receive(msg) => ReceiveKeeps(s, msg);
    case TimerFires(m) => FireTimerKeeps(s, m);
    case NoAck(id) => MarkKeeps(s, id, Suspect, Alive);
    case DeadAnswers(id) => ResurrectKeeps(s, id);
    case Gossip => TakeKeepsValid(s);
    case _ =>
  }

  /** Always: the node does not list itself; every queued record is what the node
      believes now; ids are queued once, with sends left; no running request
      shares its number with a later one. */
  lemma {:induction false} AlwaysValid(states: seq<State>, events: seq<Event>, k: nat)
    requires Run(states, events) && k < |states|
    ensures Valid(states[k]) && states[k].id == states[0].id
  {
    if k > 0 {
      AlwaysValid(states, events, k - 1);
      assert EventAt(states, events, k - 1);
      EventKeeps(states[k - 1], events[k - 1]);
    }
  }

  /** Whatever a message gossips is at most eight different records, each the node's
      belief at that moment, and none gossiped more often than one that had to wait. */
  lemma GossipIsBelief(states: seq<State>, events: seq<Event>, k: nat)
    requires Run(states, events) && k < |states|
    ensures var updates := TakeBroadcasts(states[k]).1;
            && |updates| == Min(MAX_UPDATES, |states[k].queue|)
            && (forall u | u in updates :: IsBelief(states[k], u))
            && (forall i, j | 0 <= i < j < |updates| :: updates[i].id != updates[j].id)
            && (forall e, f | e in states[k].queue && e.member in updates
                              && f in states[k].queue && f.member !in updates :: e.sent <= f.sent)
  {
    AlwaysValid(states, events, k);
    var q := states[k].queue;
    DueIsLeastSent(q);
    var due, updates := Due(q), TakeBroadcasts(states[k]).1;
    assert forall i | 0 <= i < |due| :: updates[i] == due[i].member;
    forall u | u in updates ensures exists d :: d in due && d.member == u {
      var i :| 0 <= i < |updates| && updates[i] == u;
      assert due[i] in due;
    }
    forall d | d in due ensures d.member in updates {
      var i :| 0 <= i < |due| && due[i] == d;
      assert updates[i] == d.member;
    }
    forall e, f | e in q && e.member in updates && f in q && f.member !in updates ensures e.sent <= f.sent {
      var d :| d in due && d.member == e.member;
      SameId(q, d, e);
    }
  }

  // ---------- refutation over a whole life ----------

  /** The event brings a rumour about `id`: someone calls it suspect or dead. */
  predicate BringsRumour(e: Event, u: Member) {
    e.Receive? && (u == e.msg.sender || u in e.msg.updates) && u.state != Alive
  }

  lemma EventRefutes(s: State, e: Event)
    ensures After(s, e).incarnation >= s.incarnation && After(s, e).id == s.id
    ensures forall u | BringsRumour(e, u) && u.id == s.id :: After(s, e).incarnation > u.incarnation
  {
    if e.Receive? {
      RefutesRumour(s, e.msg.sender);
      RefutesAll(Merge(s, e.msg.sender), e.msg.updates);
    }
  }

  lemma {:induction false} IncarnationGrows(states: seq<State>, events: seq<Event>, j: nat, k: nat)
    requires RunFrom(states, events) && j <= k < |states|
    ensures states[k].incarnation >= states[j].incarnation && states[k].id == states[j].id
    decreases k
  {
    if j < k {
      IncarnationGrows(states, events, j, k - 1);
      assert EventAt(states, events, k - 1);
      EventRefutes(states[k - 1], events[k - 1]);
    }
  }

  /** A node's own incarnation exceeds that of every rumour about itself that it ever
      heard, so from then on its messages clear it at any peer that holds the rumour. */
  lemma RumoursStayRefuted(states: seq<State>, events: seq<Event>, j: nat, k: nat, u: Member, peer: State)
    requires RunFrom(states, events) && j < k < |states|
    requires BringsRumour(events[j], u) && u.id == states[j].id
    ensures states[k].incarnation > u.incarnation
    ensures peer.id != u.id && u.id in peer.members && peer.members[u.id] == u ==>
            Merge(peer, Me(states[k])).members[u.id] == Me(states[k])
  {
    assert EventAt(states, events, j);
    EventRefutes(states[j], events[j]);
    IncarnationGrows(states, events, j + 1, k);
    if peer.id != u.id && u.id in peer.members && peer.members[u.id] == u {
      IncarnationGrows(states, events, j, k);
      SenderRecordWins(states[k], u, peer);
    }
  }

  // ---------- suspicion timers ----------

  /** The event reports or decides no death of `id`. */
  predicate Spares(s: State, e: Event, id: MemberId) {
    match e
    case Receive(msg) => NoDeath([msg.sender] + msg.updates, id)
    case TimerFires(m) => id in FireTimer(s, m).members ==> FireTimer(s, m).members[id].state != Dead
    case _ => true
  }

  /** `s'` believes what `s` does about `id`, or something above it. */
  ghost predicate GrowsTo(s: State, s': State, id: MemberId)
    requires Believes(s, id)
  {
    Believes(s', id) && (s'.members[id] == s.members[id] || Above(s'.members[id], s.members[id]))
  }

  /** While nobody is dead, a record gives way only to one above it. */
  lemma EventGrows(s: State, e: Event, id: MemberId)
    requires Valid(s) && Believes(s, id) && Spares(s, e, id)
    ensures GrowsTo(s, After(s, e), id)
  {
    match e
    case Receive(msg) => LearnGrows(s, msg, id);
    case TimerFires(m) => FireTimerGrows(s, m, id);
    case NoAck(other) => MarkGrows(s, other, id);
    case DeadAnswers(other) => ResurrectGrows(s, other, id);
    case _ =>
  }

  lemma FireTimerGrows(s: State, m: Member, id: MemberId)
    requires Valid(s) && Believes(s, id) && Spares(s, TimerFires(m), id)
    ensures GrowsTo(s, FireTimer(s, m), id)
  {}

  lemma MarkGrows(s: State, other: MemberId, id: MemberId)
    requires Valid(s) && Believes(s, id)
    ensures GrowsTo(s, ProbeFailed(s, other), id)
  {
    assert other in s.members ==> s.members[other].id == other;
  }

  lemma ResurrectGrows(s: State, other: MemberId, id: MemberId)
    requires Valid(s) && Believes(s, id)
    ensures GrowsTo(s, Resurrect(s, other), id)
  {
    assert other in s.members ==> s.members[other].id == other;
  }

  lemma MergeGrows(s: State, u: Member, id: MemberId)
    requires Valid(s) && Believes(s, id) && (u.id == id ==> u.state != Dead)
    ensures GrowsTo(s, Merge(s, u), id)
  {}

  lemma {:induction false} MergeAllGrows(s: State, updates: seq<Member>, id: MemberId)
    requires Valid(s) && Believes(s, id) && NoDeath(updates, id)
    ensures GrowsTo(s, MergeAll(s, updates), id)
  {
    if updates != [] {
      var front, u := updates[..|updates| - 1], updates[|updates| - 1];
      MergeAllGrows(s, front, id);
      MergeAllKeeps(s, front);
      assert u in updates;
      MergeGrows(MergeAll(s, front), u, id);
    }
  }

  lemma LearnGrows(s: State, msg: Message, id: MemberId)
    requires Valid(s) && Believes(s, id) && NoDeath([msg.sender] + msg.updates, id)
    ensures GrowsTo(s, Learn(s, msg), id)
  {
    assert msg.sender in [msg.sender] + msg.updates;
    MergeGrows(s, msg.sender, id);
    MergeKeeps(s, msg.sender);
    forall u | u in msg.updates ensures u.id == id ==> u.state != Dead {
      assert u in [msg.sender] + msg.updates;
    }
    MergeAllGrows(Merge(s, msg.sender), msg.updates, id);
  }

  lemma {:induction false} RecordGrows(states: seq<State>, events: seq<Event>, j: nat, k: nat, id: MemberId)
    requires Run(states, events) && j <= k < |states| && Believes(states[j], id)
    requires forall i {:trigger events[i]} | j <= i < k :: Spares(states[i], events[i], id)
    ensures GrowsTo(states[j], states[k], id)
    decreases k
  {
    if j < k {
      RecordGrows(states, events, j, k - 1, id);
      AlwaysValid(states, events, k - 1);
      assert EventAt(states, events, k - 1);
      EventGrows(states[k - 1], events[k - 1], id);
    }
  }

  /** A timer that was set for the record `m` and now declares death proves that `m`
      stood unchanged all along, unless a death was reported in between. */
  lemma SuspectAllAlong(states: seq<State>, events: seq<Event>, j: nat, k: nat, m: Member, i: nat)
    requires Run(states, events) && j <= i <= k < |events|
    requires m.state == Suspect && m.id in states[j].members && states[j].members[m.id] == m
    requires forall n {:trigger events[n]} | j <= n < k :: Spares(states[n], events[n], m.id)
    requires events[k] == TimerFires(m) && !Spares(states[k], events[k], m.id)
    ensures m.id in states[i].members && states[i].members[m.id] == m
  {
    RecordGrows(states, events, j, i, m.id);
    RecordGrows(states, events, i, k, m.id);
  }

  // ---------- a timer that outlived its suspicion ----------

  const FROM_B: Member := Member("b", "at-b", Alive, 0)

  function A(state: Health, incarnation: int): Member {
    Member("a", "at-a", state, incarnation)
  }

  function Rumour(m: Member): Event {
    Receive(Message(Ack, 0, FROM_B, "", [m]))
  }

  /** Node `n` holds `m` for what is true of `a`, and its first timer still runs. */
  predicate Holds(s: State, m: Member) {
    && s.id == "n"
    && "a" in s.members && s.members["a"] == m
    && "b" in s.members && s.members["b"] == FROM_B
    && A(Suspect, 5) in s.timers
  }

  lemma LearnsOne(s: State, m: Member)
    ensures After(s, Rumour(m)).members == Merge(Merge(s, FROM_B), m).members
    ensures After(s, Rumour(m)).timers == Merge(Merge(s, FROM_B), m).timers
    ensures After(s, Rumour(m)).id == s.id
  {
    assert MergeAll(Merge(s, FROM_B), [m]) == Merge(Merge(s, FROM_B), m) by {
      assert [m][..0] == [];
    }
  }

  ghost predicate Leads(s: State, e: Event, s': State) {
    Possible(s, e) && s' == After(s, e)
  }

  lemma FirstRumour(s: State) returns (e: Event, s': State)
    requires s == NewNode("n", "at-n")
    ensures Leads(s, e, s') && Holds(s', A(Suspect, 5))
  {
    LearnsOne(s, A(Suspect, 5));
    e := Rumour(A(Suspect, 5));
    s' := After(s, e);
  }

  lemma NextRumour(s: State, current: Member, m: Member) returns (e: Event, s': State)
    requires Holds(s, current) && m.id == "a" && Supersedes(m, current)
    ensures Leads(s, e, s') && Holds(s', m)
  {
    LearnsOne(s, m);
    e := Rumour(m);
    s' := After(s, e);
  }

  lemma AnswersAfterAll(s: State) returns (e: Event, s': State)
    requires Holds(s, A(Dead, 4))
    ensures Leads(s, e, s') && Holds(s', A(Alive, 5))
  {
    e := DeadAnswers("a");
    s' := After(s, e);
  }

  lemma SilentAgain(s: State) returns (e: Event, s': State)
    requires Holds(s, A(Alive, 5))
    ensures e == NoAck("a") && Leads(s, e, s') && Holds(s', A(Suspect, 5))
  {
    e := NoAck("a");
    s' := After(s, e);
  }

  lemma OldTimerFires(s: State) returns (s': State)
    requires Holds(s, A(Suspect, 5))
    ensures Leads(s, TimerFires(A(Suspect, 5)), s') && "a" in s'.members && s'.members["a"].state == Dead
  {
    s' := After(s, TimerFires(A(Suspect, 5)));
  }

  lemma SuspectedThenRefuted() returns (states: seq<State>, events: seq<Event>)
    ensures Run(states, events) && |events| == 2
    ensures Holds(states[1], A(Suspect, 5)) && Holds(states[2], A(Alive, 6))
  {
    var s0 := NewNode("n", "at-n");
    var e0, s1 := FirstRumour(s0);
    states, events := Extend([s0], [], e0, s1);
    var e1, s2 := NextRumour(s1, A(Suspect, 5), A(Alive, 6));
    states, events := Extend(states, events, e1, s2);
  }

  lemma AliveAgain() returns (states: seq<State>, events: seq<Event>)
    ensures Run(states, events) && |events| == 4
    ensures Holds(states[1], A(Suspect, 5)) && Holds(states[2], A(Alive, 6)) && Holds(states[4], A(Alive, 5))
  {
    states, events := SuspectedThenRefuted();
    var e2, s3 := NextRumour(states[2], A(Alive, 6), A(Dead, 4));
    states, events := Extend(states, events, e2, s3);
    var e3, s4 := AnswersAfterAll(s3);
    states, events := Extend(states, events, e3, s4);
  }

  /** Suspected at 5 and refuted at 6, declared dead at 4 by an old rumour, answering
      again at 5, suspected anew: the timer of the refuted suspicion still fires, and
      takes the new suspicion for its own. */
  lemma OldTimerCanKill() returns (states: seq<State>, events: seq<Event>)
    ensures Run(states, events) && |events| == 6
    ensures Holds(states[1], A(Suspect, 5)) && Holds(states[2], A(Alive, 6))
    ensures Supersedes(A(Alive, 6), A(Suspect, 5)) && Holds(states[4], A(Alive, 5))
    ensures events[4] == NoAck("a") && events[5] == TimerFires(A(Suspect, 5))
    ensures "a" in states[6].members && states[6].members["a"].state == Dead
  {
    states, events := AliveAgain();
    var e4, s5 := SilentAgain(states[4]);
    states, events := Extend(states, events, e4, s5);
    var s6 := OldTimerFires(s5);
    states, events := Extend(states, events, TimerFires(A(Suspect, 5)), s6);
  }

  lemma Extend(states: seq<State>, events: seq<Event>, e: Event, s: State) returns (states': seq<State>, events': seq<Event>)
    requires Run(states, events) && Leads(states[|events|], e, s)
    ensures Run(states', events') && states' == states + [s] && events' == events + [e]
  {
    states', events' := states + [s], events + [e];
    forall k: nat | k < |events'| ensures EventAt(states', events', k) {
      if k < |events| {
        assert EventAt(states, events, k);
      }
    }
  }
}
