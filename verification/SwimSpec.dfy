/** A SWIM member's beliefs and its gossip queue (src/dssd/swim.py), one atomic
    step of the event loop at a time. `SwimNode.Node` is the imperative form. */
module SwimSpec {

  type MemberId = string

  /** How often one record is gossiped, and how many records a message carries. */
  const MAX_TRANSMITS: nat := 5
  const MAX_UPDATES: nat := 8

  datatype Health = Alive | Suspect | Dead

  function Severity(h: Health): nat {
    match h
    case Alive => 0
    case Suspect => 1
    case Dead => 2
  }

  datatype Member = Member(id: MemberId, addr: string, state: Health, incarnation: int)

  /** The conflict rule for two records of the same member. */
  predicate Supersedes(update: Member, current: Member) {
    if update.state == Dead then current.state != Dead
    else if update.incarnation != current.incarnation then update.incarnation > current.incarnation
    else Severity(update.state) > Severity(current.state)
  }

  /** A record waiting to be gossiped, and how often it was. */
  datatype Queued = Queued(member: Member, sent: nat)

  type Queue = seq<Queued>

  datatype MsgType = Ping | PingReq | Ack | Join | JoinAck

  datatype Message = Message(kind: MsgType, number: nat, sender: Member, targetAddr: string, updates: seq<Member>)

  /** What a message is answered with at once. A join is answered with everything known, in no particular order. */
  datatype Reply =
    | NoReply
    | AckReply(addr: string, number: nat, me: Member, updates: seq<Member>)
    | JoinReply(addr: string, number: nat, me: Member, known: set<Member>)
    | Relay(addr: string, request: Message)

  /** `queue` lists the records in the order in which the table holds them, `timers`
      the suspicion timers still running, `waiters` who waits for an ack and whether it came. */
  datatype State = State(
    id: MemberId,
    addr: string,
    members: map<MemberId, Member>,
    incarnation: int,
    queue: Queue,
    timers: multiset<Member>,
    waiters: map<nat, bool>,
    requests: nat)

  function NewNode(id: MemberId, addr: string): State {
    State(id, addr, map[], 0, [], multiset{}, map[], 0)
  }

  function Me(s: State): Member {
    Member(s.id, s.addr, Alive, s.incarnation)
  }

  // ---------- the queue ----------

  /** Puts a record in the place its id has in the table, or at the end. */
  function Enqueue(q: Queue, m: Member): Queue {
    if q == [] then [Queued(m, 0)]
    else if q[0].member.id == m.id then [Queued(m, 0)] + q[1..]
    else [q[0]] + Enqueue(q[1..], m)
  }

  /** Behind everything that was sent no more often: a stable sort inserts like this. */
  function Insert(e: Queued, sorted: Queue): Queue {
    if sorted == [] || e.sent < sorted[0].sent then [e] + sorted
    else [sorted[0]] + Insert(e, sorted[1..])
  }

  /** Least gossiped first, ties in table order. */
  function SortBySent(q: Queue): Queue {
    if q == [] then [] else Insert(q[|q| - 1], SortBySent(q[..|q| - 1]))
  }

  function Min(a: nat, b: nat): nat {
    if a <= b then a else b
  }

  /** The records that the next message carries. */
  function Due(q: Queue): Queue
  {
    var sorted := SortBySent(q);
    sorted[..Min(MAX_UPDATES, |sorted|)]
  }

  function Ids(q: Queue): set<MemberId> {
    set e | e in q :: e.member.id
  }

  function Records(q: Queue): seq<Member> {
    seq(|q|, i requires 0 <= i < |q| => q[i].member)
  }

  /** The queue after the records in `ids` were gossiped once more. */
  function Bump(q: Queue, ids: set<MemberId>): Queue {
    if q == [] then []
    else if q[0].member.id !in ids then [q[0]] + Bump(q[1..], ids)
    else if q[0].sent + 1 >= MAX_TRANSMITS then Bump(q[1..], ids)
    else [q[0].(sent := q[0].sent + 1)] + Bump(q[1..], ids)
  }

  function TakeQueue(q: Queue): Queue {
    Bump(q, Ids(Due(q)))
  }

  function TakeBroadcasts(s: State): (State, seq<Member>) {
    (s.(queue := TakeQueue(s.queue)), Records(Due(s.queue)))
  }

  // ---------- beliefs ----------

  function Set(s: State, m: Member): State {
    s.(members := s.members[m.id := m],
       queue := Enqueue(s.queue, m),
       timers := if m.state == Suspect && (m.id !in s.members || s.members[m.id].state != Suspect)
                 then s.timers + multiset{m} else s.timers)
  }

  function Mark(s: State, id: MemberId, to': Health, from': Health): State {
    if id !in s.members || s.members[id].state != from' then s
    else Set(s, s.members[id].(state := to'))
  }

  function MarkAt(s: State, id: MemberId, to': Health, from': Health, incarnation: int): State {
    if id !in s.members || s.members[id].incarnation != incarnation then s else Mark(s, id, to', from')
  }

  /** One piece of gossip. A rumour about this very node is refuted with a newer incarnation. */
  function Merge(s: State, update: Member): State {
    if update.id == s.id then
      if update.state != Alive && update.incarnation >= s.incarnation then
        var s' := s.(incarnation := update.incarnation + 1);
        s'.(queue := Enqueue(s'.queue, Me(s')))
      else s
    else if update.id !in s.members then
      if update.state != Dead then Set(s, update) else s
    else if Supersedes(update, s.members[update.id]) then Set(s, update)
    else s
  }

  function MergeAll(s: State, updates: seq<Member>): State {
    if updates == [] then s else Merge(MergeAll(s, updates[..|updates| - 1]), updates[|updates| - 1])
  }

  /** Every part of a message is gossip, its sender's record first. */
  function Learn(s: State, msg: Message): State {
    MergeAll(Merge(s, msg.sender), msg.updates)
  }

  function Answer(s: State, msg: Message): (State, Reply) {
    match msg.kind
    case Ping =>
      var (s', updates) := TakeBroadcasts(s);
      (s', AckReply(msg.sender.addr, msg.number, Me(s'), updates))
    case Join => (s, JoinReply(msg.sender.addr, msg.number, Me(s), s.members.Values))
    case PingReq => (s, Relay(msg.targetAddr, msg))
    case _ => (if msg.number in s.waiters then s.(waiters := s.waiters[msg.number := true]) else s, NoReply)
  }

  function Handle(s: State, msg: Message): (State, Reply) {
    Answer(Learn(s, msg), msg)
  }

  // ---------- timers and probes ----------

  function FireTimer(s: State, m: Member): State {
    MarkAt(s.(timers := s.timers - multiset{m}), m.id, Dead, Suspect, m.incarnation)
  }

  /** Nobody got an ack from `id`. */
  function ProbeFailed(s: State, id: MemberId): State {
    Mark(s, id, Suspect, Alive)
  }

  /** A member believed dead has answered; its incarnation is raised on its behalf. */
  function Resurrect(s: State, id: MemberId): State {
    if id in s.members && s.members[id].state == Dead
    then Set(s, s.members[id].(state := Alive, incarnation := s.members[id].incarnation + 1))
    else s
  }

  function Request(s: State): (State, nat) {
    var n := s.requests + 1;
    (s.(requests := n, waiters := s.waiters[n := false]), n)
  }

  function EndRequest(s: State, n: nat): State {
    s.(waiters := s.waiters - {n})
  }

  // ---------- runs of one node ----------

  datatype Event =
    | Receive(msg: Message)
    | TimerFires(m: Member)
    | NoAck(id: MemberId)
    | DeadAnswers(id: MemberId)
    | Gossip
    | SendRequest
    | RequestEnds(number: nat)

  predicate Possible(s: State, e: Event) {
    match e
    case TimerFires(m) => m in s.timers
    case RequestEnds(n) => n in s.waiters
    case _ => true
  }

  function After(s: State, e: Event): State {
    match e
    case Receive(msg) => Handle(s, msg).0
    case TimerFires(m) => FireTimer(s, m)
    case NoAck(id) => ProbeFailed(s, id)
    case DeadAnswers(id) => Resurrect(s, id)
    case Gossip => TakeBroadcasts(s).0
    case SendRequest => Request(s).0
    case RequestEnds(n) => EndRequest(s, n)
  }

  /** What a node goes through: `states[k + 1]` comes from `states[k]` by `events[k]`. */
  ghost predicate RunFrom(states: seq<State>, events: seq<Event>) {
    && |states| == |events| + 1
    && forall k: nat {:trigger EventAt(states, events, k)} | k < |events| :: EventAt(states, events, k)
  }

  ghost predicate EventAt(states: seq<State>, events: seq<Event>, k: nat)
    requires k < |events| && |states| == |events| + 1
  {
    Possible(states[k], events[k]) && states[k + 1] == After(states[k], events[k])
  }

  ghost predicate Run(states: seq<State>, events: seq<Event>) {
    && RunFrom(states, events)
    && states[0] == NewNode(states[0].id, states[0].addr)
  }
}
