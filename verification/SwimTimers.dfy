/** Which suspicions get a timer, how long it runs, and what its firing does, over the whole
    life of a member (src/dssd/swim.py). */
module SwimTimers {
  import opened SwimSpec
  import opened SwimQueue
  import opened SwimBeliefs
  import opened SwimRuns

  predicate IsSuspect(s: State, id: MemberId) {
    id in s.members && s.members[id].state == Suspect
  }

  /** The event makes a suspect of `id`, which was none. */
  predicate BecomesSuspect(s: State, e: Event, id: MemberId) {
    !IsSuspect(s, id) && IsSuspect(After(s, e), id)
  }

  // ---------- one record ----------

  lemma MergeTimes(s: State, u: Member, m: Member)
    requires Valid(s) && m.state == Suspect
    ensures var s' := Merge(s, u);
            m in s'.timers <==> m in s.timers || (!IsSuspect(s, m.id) && m.id in s'.members && s'.members[m.id] == m)
  {}

  lemma MergeKeepsTimers(s: State, u: Member, m: Member)
    ensures s.timers[m] <= Merge(s, u).timers[m]
  {}

  lemma {:induction false} MergeAllKeepsTimers(s: State, updates: seq<Member>, m: Member)
    ensures s.timers[m] <= MergeAll(s, updates).timers[m]
  {
    if updates != [] {
      MergeAllKeepsTimers(s, updates[..|updates| - 1], m);
      MergeKeepsTimers(MergeAll(s, updates[..|updates| - 1]), updates[|updates| - 1], m);
    }
  }

  // ---------- several records ----------

  /** Record `i` is the one that makes `m` the suspicion: before it, there was none. */
  ghost predicate FirstSuspicion(s: State, us: seq<Member>, m: Member, i: int) {
    && 0 <= i < |us| && !IsSuspect(MergeAll(s, us[..i]), m.id)
    && var s' := Merge(MergeAll(s, us[..i]), us[i]); m.id in s'.members && s'.members[m.id] == m
  }

  lemma SameInFront(s: State, us: seq<Member>, m: Member, i: int)
    requires 0 <= i < |us| - 1
    ensures FirstSuspicion(s, us[..|us| - 1], m, i) <==> FirstSuspicion(s, us, m, i)
  {
    assert us[..|us| - 1][..i] == us[..i];
  }

  lemma {:induction false} MergeAllTimes(s: State, us: seq<Member>, m: Member)
    requires Valid(s) && m.state == Suspect
    ensures m in MergeAll(s, us).timers <==> m in s.timers || exists i :: FirstSuspicion(s, us, m, i)
  {
    if us != [] {
      var front, n := us[..|us| - 1], |us| - 1;
      MergeAllTimes(s, front, m);
      MergeAllKeeps(s, front);
      MergeTimes(MergeAll(s, front), us[n], m);
      assert m in MergeAll(s, us).timers <==> m in MergeAll(s, front).timers || FirstSuspicion(s, us, m, n);
      OneMoreReport(s, us, front, m);
    }
  }

  lemma OneMoreReport(s: State, us: seq<Member>, front: seq<Member>, m: Member)
    requires us != [] && front == us[..|us| - 1]
    ensures (exists i :: FirstSuspicion(s, us, m, i)) <==>
            (exists i :: FirstSuspicion(s, front, m, i)) || FirstSuspicion(s, us, m, |us| - 1)
  {
    forall i | 0 <= i < |us| - 1 ensures FirstSuspicion(s, front, m, i) <==> FirstSuspicion(s, us, m, i) {
      SameInFront(s, us, m, i);
    }
    if i :| FirstSuspicion(s, us, m, i) {
      assert i < |us| - 1 ==> FirstSuspicion(s, front, m, i);
    }
    if i :| FirstSuspicion(s, front, m, i) {
      assert FirstSuspicion(s, us, m, i);
    }
  }

  /** `id` is reported at one place at most. */
  predicate ReportedOnce(us: seq<Member>, id: MemberId) {
    forall i, j | 0 <= i < j < |us| :: !(us[i].id == id && us[j].id == id)
  }

  lemma {:induction false} NotReported(s: State, us: seq<Member>, id: MemberId)
    requires forall i | 0 <= i < |us| :: us[i].id != id
    ensures id in MergeAll(s, us).members <==> id in s.members
    ensures id in s.members ==> MergeAll(s, us).members[id] == s.members[id]
  {
    if us != [] {
      NotReported(s, us[..|us| - 1], id);
      MergeOther(MergeAll(s, us[..|us| - 1]), us[|us| - 1], id);
    }
  }

  lemma {:induction false} MergeAllJoin(s: State, a: seq<Member>, b: seq<Member>)
    ensures MergeAll(s, a + b) == MergeAll(MergeAll(s, a), b)
  {
    if b == [] {
      assert a + b == a;
    } else {
      var front := b[..|b| - 1];
      assert (a + b)[..|a + b| - 1] == a + front;
      MergeAllJoin(s, a, front);
    }
  }

  lemma UpTo(s: State, us: seq<Member>, i: nat)
    requires i < |us|
    ensures MergeAll(s, us[..i + 1]) == Merge(MergeAll(s, us[..i]), us[i])
    ensures MergeAll(s, us) == MergeAll(MergeAll(s, us[..i + 1]), us[i + 1..])
  {
    assert us[..i + 1][..i] == us[..i];
    assert us == us[..i + 1] + us[i + 1..];
    MergeAllJoin(s, us[..i + 1], us[i + 1..]);
  }

  /** The one report of `id` decides what is believed of it. */
  lemma TheReport(s: State, us: seq<Member>, id: MemberId, i: nat)
    requires i < |us| && ReportedOnce(us, id) && us[i].id == id
    ensures IsSuspect(MergeAll(s, us[..i]), id) <==> IsSuspect(s, id)
    ensures var s' := Merge(MergeAll(s, us[..i]), us[i]);
            && (id in MergeAll(s, us).members <==> id in s'.members)
            && (id in s'.members ==> MergeAll(s, us).members[id] == s'.members[id])
  {
    NotReported(s, us[..i], id);
    UpTo(s, us, i);
    NotReported(MergeAll(s, us[..i + 1]), us[i + 1..], id);
  }

  lemma OnceIsFirst(s: State, us: seq<Member>, id: MemberId) returns (i: int)
    requires Valid(s) && ReportedOnce(us, id) && !IsSuspect(s, id) && IsSuspect(MergeAll(s, us), id)
    ensures FirstSuspicion(s, us, MergeAll(s, us).members[id], i)
  {
    MergeAllKeeps(s, us);
    if forall j | 0 <= j < |us| :: us[j].id != id {
      NotReported(s, us, id);
      assert false;
    } else {
      i :| 0 <= i < |us| && us[i].id == id;
      TheReport(s, us, id, i);
    }
  }

  // ---------- one message ----------

  /** Everything a message reports, in the order in which it is merged. */
  function Reports(msg: Message): seq<Member> {
    [msg.sender] + msg.updates
  }

  lemma LearnsReports(s: State, msg: Message)
    ensures MergeAll(s, Reports(msg)) == Learn(s, msg)
  {
    MergeAllJoin(s, [msg.sender], msg.updates);
    assert [msg.sender][..0] == [];
  }

  lemma ReceiveTimers(s: State, msg: Message)
    ensures After(s, Receive(msg)).timers == MergeAll(s, Reports(msg)).timers
    ensures After(s, Receive(msg)).members == MergeAll(s, Reports(msg)).members
  {
    LearnsReports(s, msg);
  }

  /** After a message a suspicion's timer runs exactly if it ran before or some report of the
      message turned a belief that was no suspicion into this very one. */
  lemma TimedExactlyWhen(s: State, msg: Message, m: Member)
    requires Valid(s) && m.state == Suspect
    ensures m in After(s, Receive(msg)).timers <==> m in s.timers || exists i :: FirstSuspicion(s, Reports(msg), m, i)
  {
    ReceiveTimers(s, msg);
    MergeAllTimes(s, Reports(msg), m);
  }

  /** The message reports `id` at one place at most, as every message with gossip from a queue does. */
  predicate ReportsOnce(msg: Message, id: MemberId) {
    ReportedOnce(Reports(msg), id)
  }

  lemma OnceIsTimed(s: State, msg: Message, id: MemberId)
    requires Valid(s) && ReportsOnce(msg, id) && BecomesSuspect(s, Receive(msg), id)
    ensures After(s, Receive(msg)).members[id] in After(s, Receive(msg)).timers
  {
    ReceiveTimers(s, msg);
    var i := OnceIsFirst(s, Reports(msg), id);
    TimedExactlyWhen(s, msg, After(s, Receive(msg)).members[id]);
  }

  // ---------- over a life ----------

  lemma ProbeIsTimed(s: State, e: Event, id: MemberId)
    requires Valid(s) && Possible(s, e) && !e.Receive? && BecomesSuspect(s, e, id)
    ensures After(s, e).members[id] in After(s, e).timers
    ensures e == NoAck(id)
  {}

  /** Who becomes suspect gets a timer: always if a probe failed, and after a message if it
      reports the member once. */
  lemma SuspicionIsTimed(states: seq<State>, events: seq<Event>, k: nat, id: MemberId)
    requires Run(states, events) && k < |events|
    requires !IsSuspect(states[k], id) && IsSuspect(states[k + 1], id)
    requires events[k].Receive? ==> ReportsOnce(events[k].msg, id)
    ensures states[k + 1].members[id] in states[k + 1].timers
  {
    AlwaysValid(states, events, k);
    assert EventAt(states, events, k);
    if events[k].Receive? {
      OnceIsTimed(states[k], events[k].msg, id);
    } else {
      ProbeIsTimed(states[k], events[k], id);
    }
  }

  /** Two suspicions in one message: the second replaces the first, whose timer is the only one. */
  lemma SecondSuspicionIsNot() returns (states: seq<State>, events: seq<Event>)
    ensures Run(states, events) && |events| == 1
    ensures !IsSuspect(states[0], "a") && "a" in states[1].members && states[1].members["a"] == A(Suspect, 6)
    ensures A(Suspect, 6) !in states[1].timers && A(Suspect, 5) in states[1].timers
  {
    var s := NewNode("n", "at-n");
    var msg := Message(Ack, 0, FROM_B, "", [A(Suspect, 5), A(Suspect, 6)]);
    states, events := [s, After(s, Receive(msg))], [Receive(msg)];
    LearnsTwo(s, msg);
    assert EventAt(states, events, 0);
  }

  lemma LearnsTwo(s: State, msg: Message)
    requires |msg.updates| == 2
    ensures Learn(s, msg) == Merge(Merge(Merge(s, msg.sender), msg.updates[0]), msg.updates[1])
  {
    var s1, us := Merge(s, msg.sender), msg.updates;
    UpTo(s1, us, 0);
    assert us[..0] == [] && us[..|us| - 1] == us[..1];
  }

  lemma EventKeepsTimer(s: State, e: Event, m: Member)
    requires m in s.timers && e != TimerFires(m)
    ensures m in After(s, e).timers
  {
    if e.Receive? {
      ReceiveTimers(s, e.msg);
      MergeAllKeepsTimers(s, Reports(e.msg), m);
    } else if e.TimerFires? {
      FiringKeepsOthers(s, e.m, m);
    } else {
      ProbesKeepTimers(s, e, m);
    }
  }

  lemma SetKeepsTimer(s: State, r: Member, m: Member)
    ensures s.timers[m] <= Set(s, r).timers[m]
  {}

  lemma FiringKeepsOthers(s: State, fired: Member, m: Member)
    requires m in s.timers && fired != m
    ensures m in FireTimer(s, fired).timers
  {
    var s1 := s.(timers := s.timers - multiset{fired});
    assert s1.timers[m] == s.timers[m];
    if fired.id in s.members {
      SetKeepsTimer(s1, s.members[fired.id].(state := Dead), m);
    }
  }

  lemma ProbesKeepTimers(s: State, e: Event, m: Member)
    requires m in s.timers && !e.Receive? && !e.TimerFires?
    ensures m in After(s, e).timers
  {
    match e
    case NoAck(id) => if id in s.members { SetKeepsTimer(s, s.members[id].(state := Suspect), m); }
    case DeadAnswers(id) =>
      if id in s.members { SetKeepsTimer(s, s.members[id].(state := Alive, incarnation := s.members[id].incarnation + 1), m); }
    case _ =>
  }

  /** A timer runs until it fires. */
  lemma {:induction false} TimerStays(states: seq<State>, events: seq<Event>, j: nat, k: nat, m: Member)
    requires RunFrom(states, events) && j <= k < |states| && m in states[j].timers
    requires forall i | j <= i < k :: events[i] != TimerFires(m)
    ensures m in states[k].timers
    decreases k
  {
    if j < k {
      TimerStays(states, events, j, k - 1, m);
      assert EventAt(states, events, k - 1);
      EventKeepsTimer(states[k - 1], events[k - 1], m);
    }
  }

  /** Detection comes to an end: whoever became suspect, and is still believed to be just that,
      can be declared dead at any time by its timer, unless that has fired. */
  lemma SuspectCanDie(states: seq<State>, events: seq<Event>, j: nat, k: nat, id: MemberId)
    requires Run(states, events) && j < |events| && j < k < |states|
    requires !IsSuspect(states[j], id) && IsSuspect(states[j + 1], id)
    requires events[j].Receive? ==> ReportsOnce(events[j].msg, id)
    requires var m := states[j + 1].members[id];
             && (forall i | j < i < k :: events[i] != TimerFires(m))
             && id in states[k].members && states[k].members[id] == m
    ensures var m := states[j + 1].members[id];
            && Possible(states[k], TimerFires(m))
            && id in After(states[k], TimerFires(m)).members
            && After(states[k], TimerFires(m)).members[id] == m.(state := Dead)
  {
    SuspicionIsTimed(states, events, j, id);
    TimerStays(states, events, j + 1, k, states[j + 1].members[id]);
    AlwaysValid(states, events, k);
  }

  /** Silence is noticed: nobody believed alive stays so when a probe gets no answer. */
  lemma SilenceIsSuspected(states: seq<State>, events: seq<Event>, k: nat, id: MemberId)
    requires Run(states, events) && k < |events| && events[k] == NoAck(id)
    requires id in states[k].members && states[k].members[id].state == Alive
    ensures id in states[k + 1].members && states[k + 1].members[id] == states[k].members[id].(state := Suspect)
    ensures states[k + 1].members[id] in states[k + 1].timers
  {
    AlwaysValid(states, events, k);
    assert EventAt(states, events, k);
  }
}
