/** Going on from a state by the moves of a system. */
module Ways {
  ghost predicate MoveAt<T(!new)>(next: (T, T) -> bool, way: seq<T>, k: int)
    requires 0 < k < |way|
  {
    next(way[k - 1], way[k])
  }

  ghost predicate Way<T(!new)>(next: (T, T) -> bool, way: seq<T>) {
    |way| > 0 && forall k {:trigger MoveAt(next, way, k)} | 0 < k < |way| :: MoveAt(next, way, k)
  }

  /** Finitely many moves lead from `a` to `b`. */
  ghost predicate LeadsTo<T(!new)>(next: (T, T) -> bool, a: T, b: T) {
    exists way :: Way(next, way) && way[0] == a && way[|way| - 1] == b
  }

  lemma Stays<T(!new)>(next: (T, T) -> bool, a: T)
    ensures LeadsTo(next, a, a)
  {
    assert Way(next, [a]) && [a][0] == a;
  }

  lemma OneMove<T(!new)>(next: (T, T) -> bool, a: T, b: T)
    requires next(a, b)
    ensures LeadsTo(next, a, b)
  {
    var way := [a, b];
    assert Way(next, way) && way[0] == a && way[|way| - 1] == b;
  }

  lemma Join<T(!new)>(next: (T, T) -> bool, front: seq<T>, rest: seq<T>) returns (way: seq<T>)
    requires Way(next, front) && Way(next, rest) && front[|front| - 1] == rest[0]
    ensures Way(next, way) && way[0] == front[0] && way[|way| - 1] == rest[|rest| - 1]
  {
    way := front + rest[1..];
    forall k | 0 < k < |way| ensures MoveAt(next, way, k) {
      if k < |front| {
        assert MoveAt(next, front, k);
      } else {
        assert MoveAt(next, rest, k - |front| + 1);
      }
    }
  }

  lemma Trans<T(!new)>(next: (T, T) -> bool, a: T, b: T, c: T)
    requires LeadsTo(next, a, b) && LeadsTo(next, b, c)
    ensures LeadsTo(next, a, c)
  {
    var front :| Way(next, front) && front[0] == a && front[|front| - 1] == b;
    var rest :| Way(next, rest) && rest[0] == b && rest[|rest| - 1] == c;
    var way := Join(next, front, rest);
  }

  /** What every move keeps, every way keeps. */
  lemma {:induction false} AlongWay<T(!new)>(next: (T, T) -> bool, way: seq<T>, keeps: T -> bool, k: nat)
    requires Way(next, way) && k < |way| && keeps(way[0])
    requires forall a, b | keeps(a) && next(a, b) :: keeps(b)
    ensures keeps(way[k])
  {
    if k > 0 {
      AlongWay(next, way, keeps, k - 1);
      assert MoveAt(next, way, k);
    }
  }
}
