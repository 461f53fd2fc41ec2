/** A SWIM member as the program has it (src/dssd/swim.py): methods that update
    its tables in place, each proved to be the step of `SwimSpec`. */
module SwimNode {
  import opened Spec = SwimSpec
  import opened SwimQueue

  class Node {
    const id: MemberId
    const addr: string
    var members: map<MemberId, Member>
    var incarnation: int
    var broadcasts: Queue
    var timers: multiset<Member>
    var waiters: map<nat, bool>
    var seqNo: nat

    function State(): State
      reads this
    {
      Spec.State(id, addr, members, incarnation, broadcasts, timers, waiters, seqNo)
    }

    /** A table has each key once. */
    ghost predicate Valid()
      reads this
    {
      DistinctIds(broadcasts)
    }

    constructor (id: MemberId, addr: string)
      ensures Valid() && State() == NewNode(id, addr)
    {
      this.id, this.addr, members, incarnation := id, addr, map[], 0;
      broadcasts, timers, waiters, seqNo := [], multiset{}, map[], 0;
    }

    /** Assigning to a key keeps its place in the table. */
    method SetBroadcast(m: Member)
      requires Valid()
      modifies this`broadcasts
      ensures Valid()
      ensures broadcasts == Enqueue(old(broadcasts), m)
    {
      EnqueueHas(broadcasts, m);
      var i := 0;
      while i < |broadcasts| && broadcasts[i].member.id != m.id
        invariant 0 <= i <= |broadcasts|
        invariant forall j | 0 <= j < i :: broadcasts[j].member.id != m.id
      {
        i := i + 1;
      }
      EnqueueAt(broadcasts, m, i);
      if i < |broadcasts| {
        broadcasts := broadcasts[i := Queued(m, 0)];
      } else {
        broadcasts := broadcasts + [Queued(m, 0)];
      }
    }

    method Set(m: Member)
      requires Valid()
      modifies this
      ensures Valid()
      ensures State() == Spec.Set(old(State()), m)
    {
      var isNew := m.state == Suspect && (m.id !in members || members[m.id].state != Suspect);
      members := members[m.id := m];
      SetBroadcast(m);
      if isNew {
        timers := timers + multiset{m};
      }
    }

    method Mark(id: MemberId, newState: Health, fromState: Health)
      requires Valid()
      modifies this
      ensures Valid()
      ensures State() == Spec.Mark(old(State()), id, newState, fromState)
    {
      if id !in members || members[id].state != fromState {
        return;
      }
      Set(members[id].(state := newState));
    }

    method FireTimer(m: Member)
      requires Valid()
      requires m in timers
      modifies this
      ensures Valid()
      ensures State() == Spec.FireTimer(old(State()), m)
    {
      timers := timers - multiset{m};
      if m.id in members && members[m.id].incarnation == m.incarnation {
        Mark(m.id, Dead, Suspect);
      }
    }

    method Resurrect(id: MemberId)
      requires Valid()
      modifies this
      ensures Valid()
      ensures State() == Spec.Resurrect(old(State()), id)
    {
      if id in members && members[id].state == Dead {
        Set(members[id].(state := Alive, incarnation := members[id].incarnation + 1));
      }
    }

    method Merge(update: Member)
      requires Valid()
      modifies this
      ensures Valid()
      ensures State() == Spec.Merge(old(State()), update)
    {
      if update.id == id {
        if update.state != Alive && update.incarnation >= incarnation {
          incarnation := update.incarnation + 1;
          SetBroadcast(Member(id, addr, Alive, incarnation));
        }
        return;
      }
      if update.id !in members {
        if update.state != Dead {
          Set(update);
        }
      } else if Supersedes(update, members[update.id]) {
        Set(update);
      }
    }

    /** Where the table has the record of `id`. */
    method Find(id: MemberId) returns (i: nat)
      requires exists e :: e in broadcasts && e.member.id == id
      ensures i < |broadcasts| && broadcasts[i].member.id == id
      ensures forall j | 0 <= j < i :: broadcasts[j].member.id != id
    {
      i := 0;
      while broadcasts[i].member.id != id
        invariant i < |broadcasts| && exists j :: i <= j < |broadcasts| && broadcasts[j].member.id == id
        invariant forall j | 0 <= j < i :: broadcasts[j].member.id != id
        decreases |broadcasts| - i
      {
        i := i + 1;
      }
    }

    /** Counts one more send of a record, or drops it after its last. */
    method SendOnce(id: MemberId)
      requires Valid() && exists e :: e in broadcasts && e.member.id == id
      modifies this`broadcasts
      ensures Valid() && broadcasts == Bump(old(broadcasts), {id})
    {
      var i := Find(id);
      BumpAt(broadcasts, i);
      BumpDistinct(broadcasts, {id});
      if broadcasts[i].sent + 1 >= MAX_TRANSMITS {
        broadcasts := broadcasts[..i] + broadcasts[i + 1..];
      } else {
        broadcasts := broadcasts[i := broadcasts[i].(sent := broadcasts[i].sent + 1)];
      }
    }

    method TakeBroadcasts() returns (updates: seq<Member>)
      requires Valid()
      modifies this`broadcasts
      ensures Valid()
      ensures (State(), updates) == Spec.TakeBroadcasts(old(State()))
    {
      ghost var before := broadcasts;
      var due := SortBySent(broadcasts);
      due := due[..Min(MAX_UPDATES, |due|)];
      DueIsLeastSent(before);
      BumpNone(before);
      assert Ids(due[..0]) == {};
      var i := 0;
      while i < |due|
        invariant 0 <= i <= |due| && Valid()
        invariant broadcasts == Bump(before, Ids(due[..i]))
      {
        NextDue(before, due, i);
        SendOnce(due[i].member.id);
        i := i + 1;
      }
      assert due[..i] == due;
      updates := Records(due);
    }

    method Handle(msg: Message) returns (reply: Reply)
      requires Valid()
      modifies this
      ensures Valid()
      ensures (State(), reply) == Spec.Handle(old(State()), msg)
    {
      Merge(msg.sender);
      ghost var start := State();
      var i := 0;
      while i < |msg.updates|
        invariant 0 <= i <= |msg.updates| && Valid()
        invariant State() == MergeAll(start, msg.updates[..i])
      {
        Merge(msg.updates[i]);
        assert msg.updates[..i + 1][..i] == msg.updates[..i];
        i := i + 1;
      }
      assert msg.updates[..i] == msg.updates;
      reply := NoReply;
      match msg.kind {
        case Ping =>
          var updates := TakeBroadcasts();
          reply := AckReply(msg.sender.addr, msg.number, Member(id, addr, Alive, incarnation), updates);
        case Join =>
          reply := JoinReply(msg.sender.addr, msg.number, Member(id, addr, Alive, incarnation), members.Values);
        case PingReq =>
          reply := Relay(msg.targetAddr, msg);
        case _ =>
          if msg.number in waiters {
            waiters := waiters[msg.number := true];
          }
      }
    }

    method Request() returns (number: nat)
      modifies this
      ensures (State(), number) == Spec.Request(old(State()))
    {
      seqNo := seqNo + 1;
      number := seqNo;
      waiters := waiters[number := false];
    }

    method EndRequest(number: nat)
      modifies this
      ensures State() == Spec.EndRequest(old(State()), number)
    {
      waiters := waiters - {number};
    }
  }
}
