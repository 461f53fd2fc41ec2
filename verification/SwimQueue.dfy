/** The gossip queue (src/dssd/swim.py): which records a message takes, how often
    each is sent, and how soon the queue is empty. */
module SwimQueue {
  import opened SwimSpec

  ghost predicate DistinctIds(q: Queue) {
    forall i, j | 0 <= i < j < |q| :: q[i].member.id != q[j].member.id
  }

  ghost predicate SendsLeft(q: Queue) {
    forall e | e in q :: e.sent < MAX_TRANSMITS
  }

  // ---------- putting a record in ----------

  lemma {:induction false} EnqueueHas(q: Queue, m: Member)
    requires DistinctIds(q)
    ensures DistinctIds(Enqueue(q, m)) && Ids(Enqueue(q, m)) == Ids(q) + {m.id}
    ensures forall e :: e in Enqueue(q, m) <==> e == Queued(m, 0) || (e in q && e.member.id != m.id)
  {
    if q != [] && q[0].member.id != m.id {
      EnqueueHas(q[1..], m);
      assert forall e :: e in q <==> e == q[0] || e in q[1..];
      assert forall e :: e in Enqueue(q, m) <==> e == q[0] || e in Enqueue(q[1..], m);
      PrependDistinct(q[0], Enqueue(q[1..], m));
    } else if q != [] {
      assert forall e :: e in q <==> e == q[0] || e in q[1..];
      assert forall e :: e in Enqueue(q, m) <==> e == Queued(m, 0) || e in q[1..];
    }
  }

  lemma {:induction false} EnqueueAt(q: Queue, m: Member, i: nat)
    requires i <= |q| && (forall j | 0 <= j < i :: q[j].member.id != m.id) && (i < |q| ==> q[i].member.id == m.id)
    ensures Enqueue(q, m) == if i < |q| then q[i := Queued(m, 0)] else q + [Queued(m, 0)]
  {
    if i > 0 {
      EnqueueAt(q[1..], m, i - 1);
    }
  }

  lemma PrependDistinct(e: Queued, q: Queue)
    requires DistinctIds(q) && forall f | f in q :: f.member.id != e.member.id
    ensures DistinctIds([e] + q)
  {}

  // ---------- sorting ----------

  ghost predicate Sorted(q: Queue) {
    forall i, j | 0 <= i < j < |q| :: q[i].sent <= q[j].sent
  }

  lemma {:induction false} InsertAdds(e: Queued, q: Queue)
    ensures multiset(Insert(e, q)) == multiset(q) + multiset{e}
  {
    if q != [] && e.sent >= q[0].sent {
      InsertAdds(e, q[1..]);
      assert q == [q[0]] + q[1..];
    }
  }

  lemma {:induction false} InsertSorts(e: Queued, q: Queue)
    requires Sorted(q)
    ensures Sorted(Insert(e, q))
  {
    if q != [] && e.sent >= q[0].sent {
      InsertSorts(e, q[1..]);
      var rest := Insert(e, q[1..]);
      forall f | f in rest ensures q[0].sent <= f.sent {
        InsertAdds(e, q[1..]);
        assert f in multiset(rest);
        assert f in q[1..] || f == e;
      }
    }
  }

  lemma {:induction false} SortSorts(q: Queue)
    ensures Sorted(SortBySent(q)) && multiset(SortBySent(q)) == multiset(q) && |SortBySent(q)| == |q|
  {
    if q != [] {
      SortSorts(q[..|q| - 1]);
      InsertSorts(q[|q| - 1], SortBySent(q[..|q| - 1]));
      InsertAdds(q[|q| - 1], SortBySent(q[..|q| - 1]));
      assert q == q[..|q| - 1] + [q[|q| - 1]];
    }
    assert |multiset(SortBySent(q))| == |SortBySent(q)| && |multiset(q)| == |q|;
  }

  lemma PermutedDistinct(q: Queue, r: Queue)
    requires DistinctIds(q) && multiset(r) == multiset(q)
    ensures DistinctIds(r)
  {
    forall i, j | 0 <= i < j < |r| ensures r[i].member.id != r[j].member.id {
      if r[i].member.id == r[j].member.id {
        assert r[i] in multiset(q) && r[j] in multiset(q);
        assert r[i] in q && r[j] in q;
        assert r[i] == r[j];
        assert r == r[..i] + [r[i]] + r[i + 1..j] + [r[j]] + r[j + 1..];
        assert multiset(r)[r[i]] >= 2;
        DistinctOnce(q, r[i]);
        assert false;
      }
    }
  }

  lemma {:induction false} DistinctOnce(q: Queue, e: Queued)
    requires DistinctIds(q)
    ensures multiset(q)[e] <= 1
  {
    if q != [] {
      DistinctOnce(q[1..], e);
      assert q == [q[0]] + q[1..];
      if e == q[0] {
        assert e !in q[1..];
      }
    }
  }

  lemma SameMembers(q: Queue, r: Queue, e: Queued)
    requires multiset(q) == multiset(r)
    ensures e in q <==> e in r
  {
    assert e in q <==> e in multiset(q);
    assert e in r <==> e in multiset(r);
  }

  lemma PrefixIsLeast(sorted: Queue, n: nat, e: Queued, f: Queued)
    requires Sorted(sorted) && n <= |sorted| && e in sorted[..n] && f in sorted && f !in sorted[..n]
    ensures e.sent <= f.sent
  {
    var i :| 0 <= i < n && sorted[..n][i] == e;
    var j :| 0 <= j < |sorted| && sorted[j] == f;
    assert forall k | 0 <= k < n :: sorted[k] in sorted[..n];
  }

  lemma PrefixDistinct(q: Queue, n: nat)
    requires DistinctIds(q) && n <= |q|
    ensures DistinctIds(q[..n])
  {}

  /** What a message takes: eight records or all there are, none twice, and none
      that was gossiped more often than one left behind. */
  lemma DueIsLeastSent(q: Queue)
    requires DistinctIds(q)
    ensures var due := Due(q);
            && |due| == Min(MAX_UPDATES, |q|) && DistinctIds(due)
            && (forall e | e in due :: e in q)
            && (forall e, f | e in due && f in q && f !in due :: e.sent <= f.sent)
  {
    var sorted := SortBySent(q);
    var n := Min(MAX_UPDATES, |sorted|);
    SortSorts(q);
    PermutedDistinct(q, sorted);
    PrefixDistinct(sorted, n);
    forall e ensures e in q <==> e in sorted {
      SameMembers(q, sorted, e);
    }
    forall e, f | e in sorted[..n] && f in q && f !in sorted[..n] ensures e.sent <= f.sent {
      PrefixIsLeast(sorted, n, e, f);
    }
  }

  // ---------- sending ----------

  lemma {:induction false} BumpNone(q: Queue)
    ensures Bump(q, {}) == q
  {
    if q != [] {
      BumpNone(q[1..]);
    }
  }

  lemma {:induction false} BumpOneMore(q: Queue, ids: set<MemberId>, id: MemberId)
    requires id !in ids
    ensures Bump(Bump(q, ids), {id}) == Bump(q, ids + {id})
  {
    if q != [] {
      BumpOneMore(q[1..], ids, id);
    }
  }

  lemma SameId(q: Queue, e: Queued, f: Queued)
    requires DistinctIds(q) && e in q && f in q && e.member.id == f.member.id
    ensures e == f
  {}

  /** Where a record in the queue comes from after a round of sending. */
  predicate Bumped(q: Queue, ids: set<MemberId>, e: Queued) {
    if e.member.id in ids then 0 < e.sent < MAX_TRANSMITS && Queued(e.member, e.sent - 1) in q else e in q
  }

  lemma {:induction false} BumpHas(q: Queue, ids: set<MemberId>, e: Queued)
    ensures e in Bump(q, ids) <==> Bumped(q, ids, e)
  {
    if q != [] {
      BumpHas(q[1..], ids, e);
      assert q == [q[0]] + q[1..];
    }
  }

  lemma {:induction false} BumpDistinct(q: Queue, ids: set<MemberId>)
    requires DistinctIds(q)
    ensures DistinctIds(Bump(q, ids)) && |Bump(q, ids)| <= |q|
  {
    if q != [] {
      BumpDistinct(q[1..], ids);
      var rest := Bump(q[1..], ids);
      forall e | e in rest ensures e.member.id != q[0].member.id {
        BumpHas(q[1..], ids, e);
      }
    }
  }

  lemma {:induction false} BumpAbsent(q: Queue, id: MemberId)
    requires forall e | e in q :: e.member.id != id
    ensures Bump(q, {id}) == q
  {
    if q != [] {
      BumpAbsent(q[1..], id);
    }
  }

  /** Sending one record changes it where it is. */
  lemma {:induction false} BumpAt(q: Queue, i: nat)
    requires DistinctIds(q) && i < |q|
    ensures Bump(q, {q[i].member.id}) ==
            if q[i].sent + 1 >= MAX_TRANSMITS then q[..i] + q[i + 1..] else q[i := q[i].(sent := q[i].sent + 1)]
  {
    var id := q[i].member.id;
    if i == 0 {
      BumpAbsent(q[1..], id);
    } else {
      var rest := q[1..];
      BumpAt(rest, i - 1);
      assert Bump(q, {id}) == [q[0]] + Bump(rest, {id});
      assert q[..i] + q[i + 1..] == [q[0]] + (rest[..i - 1] + rest[i..]);
    }
  }

  /** The next record to be sent is still queued, and sending it completes the round so far. */
  lemma NextDue(q: Queue, due: Queue, i: nat)
    requires DistinctIds(q) && DistinctIds(due) && i < |due| && due[i] in q
    ensures var done := Bump(q, Ids(due[..i]));
            && due[i] in done
            && Bump(done, {due[i].member.id}) == Bump(q, Ids(due[..i + 1]))
  {
    var id := due[i].member.id;
    assert Ids(due[..i + 1]) == Ids(due[..i]) + {id} by {
      assert due[..i + 1] == due[..i] + [due[i]];
    }
    assert id !in Ids(due[..i]);
    BumpHas(q, Ids(due[..i]), due[i]);
    BumpOneMore(q, Ids(due[..i]), id);
  }

  /** A round of sending leaves each id at most once more in the queue, and none with all sends used up. */
  lemma TakeKeeps(q: Queue)
    requires DistinctIds(q) && SendsLeft(q)
    ensures DistinctIds(TakeQueue(q)) && SendsLeft(TakeQueue(q))
    ensures forall e | e in TakeQueue(q) :: exists f :: f in q && f.member == e.member
  {
    BumpDistinct(q, Ids(Due(q)));
    forall e | e in TakeQueue(q)
      ensures e.sent < MAX_TRANSMITS && exists f :: f in q && f.member == e.member
    {
      BumpHas(q, Ids(Due(q)), e);
      assert e in q || Queued(e.member, e.sent - 1) in q;
    }
  }

  // ---------- how often, how long ----------

  /** The queue after `n` messages, if nothing new is queued. */
  function AfterCalls(q: Queue, n: nat): Queue
    decreases n
  {
    if n == 0 then q else AfterCalls(TakeQueue(q), n - 1)
  }

  /** How many of these messages carry the record of `id`. */
  function Sends(q: Queue, n: nat, id: MemberId): nat
    decreases n
  {
    if n == 0 then 0 else (if id in Ids(Due(q)) then 1 else 0) + Sends(TakeQueue(q), n - 1, id)
  }

  lemma {:induction false} NotQueuedNotSent(q: Queue, n: nat, id: MemberId)
    requires DistinctIds(q) && SendsLeft(q) && id !in Ids(q)
    ensures Sends(q, n, id) == 0 && id !in Ids(AfterCalls(q, n))
    decreases n
  {
    if n > 0 {
      DueIsLeastSent(q);
      TakeKeeps(q);
      NotQueuedNotSent(TakeQueue(q), n - 1, id);
    }
  }

  /** Of `e`, sent `more` times since, the queue has the record with both counted, or all sends are used up. */
  predicate AddsUp(q: Queue, e: Queued, more: nat) {
    if e.member.id in Ids(q) then e.sent + more < MAX_TRANSMITS && Queued(e.member, e.sent + more) in q
    else e.sent + more == MAX_TRANSMITS
  }

  /** Sends are conserved: those made and those a record has left always add up to
      five, so it is sent at most five times, and exactly five once it is gone. */
  lemma {:induction false} SendsAddUp(q: Queue, n: nat, e: Queued)
    requires DistinctIds(q) && SendsLeft(q) && e in q
    ensures AddsUp(AfterCalls(q, n), e, Sends(q, n, e.member.id))
    decreases n
  {
    if n > 0 {
      var sent := e.sent + if e.member.id in Ids(Due(q)) then 1 else 0;
      var q1 := TakeQueue(q);
      TakeKeeps(q);
      OneCall(q, e, sent);
      assert AfterCalls(q, n) == AfterCalls(q1, n - 1);
      assert e.sent + Sends(q, n, e.member.id) == sent + Sends(q1, n - 1, e.member.id);
      if sent < MAX_TRANSMITS {
        SendsAddUp(q1, n - 1, Queued(e.member, sent));
      } else {
        NotQueuedNotSent(q1, n - 1, e.member.id);
      }
    }
  }

  lemma OneCall(q: Queue, e: Queued, sent: nat)
    requires DistinctIds(q) && SendsLeft(q) && e in q
    requires sent == e.sent + if e.member.id in Ids(Due(q)) then 1 else 0
    ensures if sent < MAX_TRANSMITS then Queued(e.member, sent) in TakeQueue(q)
            else sent == MAX_TRANSMITS && e.member.id !in Ids(TakeQueue(q))
  {
    BumpHas(q, Ids(Due(q)), Queued(e.member, sent));
    if sent == MAX_TRANSMITS {
      GoneAfterLast(q, e);
    }
  }

  lemma GoneAfterLast(q: Queue, e: Queued)
    requires DistinctIds(q) && e in q && e.member.id in Ids(Due(q)) && e.sent + 1 == MAX_TRANSMITS
    ensures e.member.id !in Ids(TakeQueue(q))
  {
    forall f | f in q ensures f.member.id == e.member.id ==> f == e {}
    forall f | f in TakeQueue(q) ensures f.member.id != e.member.id {
      BumpHas(q, Ids(Due(q)), f);
    }
  }

  /** All sends that the queue still has to make. */
  function SendsToGo(q: Queue): nat
    requires SendsLeft(q)
  {
    if q == [] then 0 else MAX_TRANSMITS - q[0].sent + SendsToGo(q[1..])
  }

  lemma {:induction false} BumpUsesSends(q: Queue, ids: set<MemberId>)
    requires DistinctIds(q) && SendsLeft(q) && ids <= Ids(q) && SendsLeft(Bump(q, ids))
    ensures SendsToGo(Bump(q, ids)) == SendsToGo(q) - |ids|
  {
    if q != [] {
      var id := q[0].member.id;
      assert q == [q[0]] + q[1..];
      BumpOthers(q[1..], ids, id);
      var rest := Bump(q[1..], ids - {id});
      assert forall e | e in rest :: e in Bump(q, ids);
      BumpUsesSends(q[1..], ids - {id});
      assert id in ids ==> |ids - {id}| == |ids| - 1;
      assert id !in ids ==> ids - {id} == ids;
    } else {
      assert ids == {};
    }
  }

  /** Only ids that are queued matter. */
  lemma {:induction false} BumpOthers(q: Queue, ids: set<MemberId>, id: MemberId)
    requires forall e | e in q :: e.member.id != id
    ensures Bump(q, ids) == Bump(q, ids - {id})
  {
    if q != [] {
      BumpOthers(q[1..], ids, id);
    }
  }

  lemma {:induction false} DistinctIdsCount(q: Queue)
    requires DistinctIds(q)
    ensures |Ids(q)| == |q|
  {
    if q != [] {
      DistinctIdsCount(q[1..]);
      assert Ids(q) == {q[0].member.id} + Ids(q[1..]) by {
        assert q == [q[0]] + q[1..];
      }
    }
  }

  lemma CallUsesSends(q: Queue)
    requires DistinctIds(q) && SendsLeft(q)
    ensures SendsLeft(TakeQueue(q)) && SendsToGo(TakeQueue(q)) == SendsToGo(q) - Min(MAX_UPDATES, |q|)
  {
    TakeKeeps(q);
    DueIsLeastSent(q);
    DistinctIdsCount(Due(q));
    BumpUsesSends(q, Ids(Due(q)));
  }

  lemma {:induction false} SendsToGoBounds(q: Queue)
    requires SendsLeft(q)
    ensures |q| <= SendsToGo(q) <= MAX_TRANSMITS * |q|
  {
    if q != [] {
      SendsToGoBounds(q[1..]);
    }
  }

  lemma FirstIsIn(q: Queue)
    ensures q != [] ==> q[0] in q
  {}

  /** A queue that fits one message is sent whole each time. */
  lemma {:induction false} SmallQueueDrains(q: Queue, n: nat)
    requires DistinctIds(q) && SendsLeft(q) && |q| <= MAX_UPDATES
    requires forall e | e in q :: e.sent + n >= MAX_TRANSMITS
    ensures AfterCalls(q, n) == []
    decreases n
  {
    FirstIsIn(q);
    if n > 0 {
      TakeKeeps(q);
      BumpDistinct(q, Ids(Due(q)));
      DueIsAll(q);
      forall e | e in TakeQueue(q) ensures e.sent + n - 1 >= MAX_TRANSMITS {
        BumpHas(q, Ids(Due(q)), e);
      }
      SmallQueueDrains(TakeQueue(q), n - 1);
    }
  }

  lemma DueIsAll(q: Queue)
    requires DistinctIds(q) && |q| <= MAX_UPDATES
    ensures Ids(Due(q)) == Ids(q)
  {
    SortSorts(q);
    assert Due(q) == SortBySent(q);
    forall e ensures e in Due(q) <==> e in q {
      assert e in Due(q) <==> e in multiset(SortBySent(q));
    }
  }

  lemma {:induction false} DrainsBySends(q: Queue, n: nat)
    requires DistinctIds(q) && SendsLeft(q) && n >= SendsToGo(q) / MAX_UPDATES + MAX_TRANSMITS
    ensures AfterCalls(q, n) == []
    decreases n
  {
    if |q| < MAX_UPDATES {
      SmallQueueDrains(q, n);
    } else {
      SendsToGoBounds(q);
      TakeKeeps(q);
      CallUsesSends(q);
      DrainsBySends(TakeQueue(q), n - 1);
    }
  }

  /** With nothing new to say, the queue is empty after so many messages. */
  lemma DrainsInTime(q: Queue)
    requires DistinctIds(q) && SendsLeft(q)
    ensures AfterCalls(q, MAX_TRANSMITS * |q| / MAX_UPDATES + MAX_TRANSMITS) == []
  {
    SendsToGoBounds(q);
    DrainsBySends(q, MAX_TRANSMITS * |q| / MAX_UPDATES + MAX_TRANSMITS);
  }

  /** By then every record was sent exactly as often as it had sends left. */
  lemma SentExactly(q: Queue, e: Queued)
    requires DistinctIds(q) && SendsLeft(q) && e in q
    ensures Sends(q, MAX_TRANSMITS * |q| / MAX_UPDATES + MAX_TRANSMITS, e.member.id) == MAX_TRANSMITS - e.sent
  {
    DrainsInTime(q);
    SendsAddUp(q, MAX_TRANSMITS * |q| / MAX_UPDATES + MAX_TRANSMITS, e);
  }
}
