/** How records of one member are ordered, and where merging them in any order
    ends (src/dssd/swim.py). */
module SwimBeliefs {
  import opened SwimSpec

  /** Newer incarnation first, then the more severe state. */
  predicate Above(a: Member, b: Member) {
    a.incarnation > b.incarnation || (a.incarnation == b.incarnation && Severity(a.state) > Severity(b.state))
  }

  predicate SameKey(a: Member, b: Member) {
    a.incarnation == b.incarnation && a.state == b.state
  }

  // ---------- the conflict rule ----------

  /** Where the rule departs from the order: a verdict of death that is too old
      still wins, and a newer one against a standing verdict does not. */
  lemma RuleAndOrder(u: Member, c: Member)
    ensures Supersedes(u, c) && !Above(u, c) <==> u.state == Dead && c.state != Dead && u.incarnation < c.incarnation
    ensures Above(u, c) && !Supersedes(u, c) <==> u.state == Dead && c.state == Dead && u.incarnation > c.incarnation
  {}

  /** The order is strict and total on (incarnation, state); so is the rule while nobody is dead. */
  lemma OrderIsStrict(a: Member, b: Member, c: Member)
    ensures !Above(a, a) && (Above(a, b) && Above(b, c) ==> Above(a, c))
    ensures Above(a, b) || Above(b, a) <==> !SameKey(a, b)
    ensures a.state != Dead && b.state != Dead ==> (Supersedes(a, b) <==> Above(a, b))
  {}

  /** With death in play the rule is not an order at all: each beats the next, and the last the first. */
  lemma RuleHasCycle(id: MemberId, addr: string)
    ensures var five, dead, two := Member(id, addr, Alive, 5), Member(id, addr, Dead, 1), Member(id, addr, Alive, 2);
            Supersedes(five, two) && Supersedes(two, dead) && Supersedes(dead, five)
  {}

  // ---------- merging ----------

  predicate NoDeath(updates: seq<Member>, id: MemberId) {
    forall u | u in updates :: u.id == id ==> u.state != Dead
  }

  /** Among `updates`, some record of `id`. */
  predicate Mentions(updates: seq<Member>, id: MemberId) {
    exists u :: u in updates && u.id == id
  }

  predicate Believes(s: State, id: MemberId) {
    id in s.members && s.members[id].state != Dead
  }

  /** `m` is one of the records that were there to choose from, and no other is above it. */
  ghost predicate IsMaximum(m: Member, s: State, updates: seq<Member>, id: MemberId) {
    && m.state != Dead
    && ((m in updates && m.id == id) || (id in s.members && m == s.members[id]))
    && (forall u | u in updates && u.id == id :: !Above(u, m))
    && (id in s.members ==> !Above(s.members[id], m))
  }

  lemma MergeOther(s: State, u: Member, id: MemberId)
    requires u.id != id
    ensures Merge(s, u).id == s.id && (id in Merge(s, u).members <==> id in s.members)
    ensures id in s.members ==> Merge(s, u).members[id] == s.members[id]
  {}

  lemma {:induction false} MergeAllId(s: State, updates: seq<Member>)
    ensures MergeAll(s, updates).id == s.id
  {
    if updates != [] {
      MergeAllId(s, updates[..|updates| - 1]);
    }
  }

  /** While no death is reported, merging ends at the lexicographic maximum of all
      that was known and said, whatever the order and however often it is said. */
  lemma {:induction false} EndsAtMaximum(s: State, updates: seq<Member>, id: MemberId)
    requires id != s.id && NoDeath(updates, id) && (id in s.members ==> Believes(s, id))
    ensures var s' := MergeAll(s, updates);
            && (id in s'.members <==> id in s.members || Mentions(updates, id))
            && (id in s'.members ==> IsMaximum(s'.members[id], s, updates, id))
  {
    if updates != [] {
      var front, u := updates[..|updates| - 1], updates[|updates| - 1];
      assert updates == front + [u];
      EndsAtMaximum(s, front, id);
      MergeAllId(s, front);
      var before := MergeAll(s, front);
      if u.id == id {
        assert u in updates;
        if id in before.members {
          OneMoreCandidate(before.members[id], s, front, u, id);
        }
      } else {
        MergeOther(before, u, id);
      }
    }
  }

  lemma OneMoreCandidate(m: Member, s: State, updates: seq<Member>, u: Member, id: MemberId)
    requires IsMaximum(m, s, updates, id) && u.id == id && u.state != Dead
    ensures IsMaximum(if Supersedes(u, m) then u else m, s, updates + [u], id)
  {}

  /** A record of `id` that is known or heard. */
  ghost predicate Candidate(u: Member, s: State, updates: seq<Member>, id: MemberId) {
    (u in updates && u.id == id) || (id in s.members && u == s.members[id])
  }

  /** Candidates of one incarnation and state are the same record, with the same address. */
  ghost predicate OneAddress(s: State, updates: seq<Member>, id: MemberId) {
    forall u, v | Candidate(u, s, updates, id) && Candidate(v, s, updates, id) && SameKey(u, v) :: u == v
  }

  /** Two nodes that know the same and hear the same records, in any order and any
      number of times, end with the same belief. */
  lemma OrderDoesNotMatter(s: State, us: seq<Member>, vs: seq<Member>, id: MemberId)
    requires id != s.id && NoDeath(us, id) && (id in s.members ==> Believes(s, id))
    requires forall u :: u in us <==> u in vs
    ensures var a, b := MergeAll(s, us).members, MergeAll(s, vs).members;
            && (id in a <==> id in b)
            && (id in a ==> SameKey(a[id], b[id]) && (OneAddress(s, us, id) ==> a[id] == b[id]))
  {
    EndsAtMaximum(s, us, id);
    EndsAtMaximum(s, vs, id);
    assert Mentions(us, id) <==> Mentions(vs, id);
    var a, b := MergeAll(s, us).members, MergeAll(s, vs).members;
    if id in a && OneAddress(s, us, id) {
      assert Candidate(a[id], s, us, id) && Candidate(b[id], s, us, id);
    }
  }

  /** What is believed after `u` and then `v`, and after `v` and then `u`. */
  function BothOrders(s: State, u: Member, v: Member): (Member, Member)
    requires u.id == v.id != s.id && Believes(s, u.id)
  {
    (Merge(Merge(s, u), v).members[u.id], Merge(Merge(s, v), u).members[u.id])
  }

  function Winner(u: Member, m: Member): Member {
    if Supersedes(u, m) then u else m
  }

  lemma OneOrder(s: State, u: Member, v: Member)
    requires u.id == v.id != s.id && u.id in s.members
    ensures var s' := Merge(Merge(s, u), v);
            u.id in s'.members && s'.members[u.id] == Winner(v, Winner(u, s.members[u.id]))
  {}

  /** No death is reported, or the death is no older than the life it meets, or both report the same death. */
  predicate NoneTooOld(u: Member, v: Member) {
    || (u.state != Dead && v.state != Dead)
    || (u.state == Dead && v.state != Dead && v.incarnation <= u.incarnation)
    || (v.state == Dead && u.state != Dead && u.incarnation <= v.incarnation)
    || (u.state == Dead && v.state == Dead && u.incarnation == v.incarnation)
  }

  lemma WinnersCommute(m: Member, u: Member, v: Member)
    requires m.state != Dead
    ensures SameKey(Winner(v, Winner(u, m)), Winner(u, Winner(v, m))) <==> NoneTooOld(u, v)
  {}

  lemma WinnersAgree(m: Member, u: Member, v: Member)
    requires m.state != Dead
    ensures var a, b := Winner(v, Winner(u, m)), Winner(u, Winner(v, m));
            a == b <==> NoneTooOld(u, v) && (SameKey(u, v) && Supersedes(u, m) ==> u == v)
  {}

  /** Two records of a member believed not dead can be merged in either order with
      the same result exactly if no death is reported, or the death is no older than
      the life it meets, or both report the same death; to have the same address too,
      records of one incarnation and state that win must agree on it. */
  lemma CommuteExactlyWhen(s: State, u: Member, v: Member)
    requires u.id == v.id != s.id && Believes(s, u.id)
    ensures var (a, b) := BothOrders(s, u, v); SameKey(a, b) <==> NoneTooOld(u, v)
    ensures var (a, b) := BothOrders(s, u, v);
            a == b <==> NoneTooOld(u, v) && (SameKey(u, v) && Supersedes(u, s.members[u.id]) ==> u == v)
  {
    OneOrder(s, u, v);
    OneOrder(s, v, u);
    WinnersCommute(s.members[u.id], u, v);
    WinnersAgree(s.members[u.id], u, v);
  }

  // ---------- refutation ----------

  /** A rumour about this node itself is outdone at once. */
  lemma RefutesRumour(s: State, u: Member)
    ensures Merge(s, u).incarnation >= s.incarnation && Merge(s, u).id == s.id
    ensures u.id == s.id && u.state != Alive ==> Merge(s, u).incarnation > u.incarnation
  {}

  lemma {:induction false} RefutesAll(s: State, updates: seq<Member>)
    ensures var s' := MergeAll(s, updates);
            && s'.id == s.id && s'.addr == s.addr && s'.incarnation >= s.incarnation
            && forall u | u in updates && u.id == s.id && u.state != Alive :: s'.incarnation > u.incarnation
  {
    if updates != [] {
      var front, u := updates[..|updates| - 1], updates[|updates| - 1];
      assert updates == front + [u];
      RefutesAll(s, front);
      RefutesRumour(MergeAll(s, front), u);
    }
  }

  /** The record that every message carries of its sender replaces such a rumour,
      of death too, at any peer that still holds it. */
  lemma SenderRecordWins(s: State, u: Member, peer: State)
    requires u.id == s.id && s.incarnation > u.incarnation
    requires peer.id != s.id && s.id in peer.members && peer.members[s.id] == u
    ensures Merge(peer, Me(s)).members[s.id] == Me(s)
  {}
}
