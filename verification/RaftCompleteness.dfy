/** Leader completeness (section 5.4 of the Raft paper), from the recorded history alone. */
module RaftCompleteness {
  import opened RaftTypes
  import opened RaftSpec
  import opened RaftCluster
  import opened RaftInvariant
  import opened RaftFrames

  /** The two ways in which the vote test makes the winner `own` hold at least
      what the voter's log `v` holds up to `i`. */
  lemma WinnerHolds(h: History, ids: set<NodeId>, t0: nat, i: nat, v: Log, own: Log)
    requires ReignsOk(h, ids) && FromLeaders(h, v) && FromLeaders(h, own)
    requires i < |ReignLog(h, t0)| && ReignLog(h, t0)[i].term == t0
    requires Agree(ReignLog(h, t0), v, i + 1)
    requires |own| > 0
    requires Last(own).term > Last(v).term || (Last(own).term == Last(v).term && |own| >= |v|)
    requires Last(own).term > Last(v).term ==>
               Last(own).term in h.reigns && Agree(ReignLog(h, t0), h.reigns[Last(own).term].base, i + 1)
    ensures Agree(ReignLog(h, t0), own, i + 1)
  {
    var u := Last(own).term;
    LogFacts(h, ids, v);
    LogFacts(h, ids, own);
    if u == Last(v).term {
      LogMatching(h, v, own, |v| - 1) by {
        assert Rooted(h, own, |own| - 1) && Rooted(h, v, |v| - 1);
        assert own[|v| - 1] == ReignLog(h, u)[|v| - 1];
      }
      AgreeShorter(v, own, |v|, i + 1);
      AgreeTrans(ReignLog(h, t0), v, own, i + 1);
    } else {
      var r := h.reigns[u];
      assert ReignOk(h, ids, u);
      assert Rooted(h, own, |own| - 1);
      assert |own| > |r.base| by { assert r.log[|own| - 1].term == u; }
      assert Agree(r.base, own, |r.base|);
      AgreeShorter(r.base, own, |r.base|, i + 1);
      AgreeTrans(ReignLog(h, t0), r.base, own, i + 1);
    }
  }

  /** Whatever a majority acknowledged and the leader of term `t0` committed is
      in the log of every leader of a later term from its first moment on. */
  lemma {:induction false} LeaderCompleteness(h: History, ids: set<NodeId>, t0: nat, i: nat, t: nat)
    requires HistoryOk(h, ids)
    requires (t0, i) in h.commits && t0 < t && t in h.reigns
    ensures Agree(ReignLog(h, t0), h.reigns[t].base, i + 1)
    decreases t
  {
    var r := h.reigns[t];
    assert CommitOk(h, ids, t0, i) && ReignOk(h, ids, t);
    var n := MajoritiesMeet(h.commits[(t0, i)], r.voters, ids);
    assert VotedFor(h, n, t, r.leader) && VoteOk(h, ids, n, t) && VoteOk(h, ids, r.leader, t);
    var v, own := h.votes[(n, t)].log, r.base;
    assert MayCount(h, n, t) && VoterKept(h, n, t) && Acked(h, n, t0, i);
    if !Agree(ReignLog(h, t0), v, i + 1) {
      assert Lost(h, t0, i, t - 1);
      var t1: nat :| t0 < t1 <= t - 1 && t1 in h.reigns && !Agree(ReignLog(h, t0), h.reigns[t1].base, i + 1);
      LeaderCompleteness(h, ids, t0, i, t1);
      assert false;
    }
    var u := Last(own).term;
    if u > Last(v).term {
      LogFacts(h, ids, own);
      LogFacts(h, ids, v);
      assert v[i].term == t0;
      LeaderCompleteness(h, ids, t0, i, u);
    }
    WinnerHolds(h, ids, t0, i, v, own);
  }

  /** The same for the whole log of a leader of `t0` or later. */
  lemma CommitInLeaderLog(h: History, ids: set<NodeId>, t0: nat, i: nat, t: nat)
    requires HistoryOk(h, ids)
    requires (t0, i) in h.commits && t0 <= t && t in h.reigns
    ensures Agree(ReignLog(h, t0), ReignLog(h, t), i + 1)
  {
    assert CommitOk(h, ids, t0, i);
    if t0 < t {
      LeaderCompleteness(h, ids, t0, i, t);
      var r := h.reigns[t];
      assert ReignOk(h, ids, t);
      AgreeShorter(r.base, r.log, |r.base|, i + 1);
      AgreeTrans(ReignLog(h, t0), r.base, r.log, i + 1);
    }
  }

  lemma CoveredByCommit(h: History, ids: set<NodeId>, t0: nat, i: nat, log: Log, k: nat, t: nat)
    requires HistoryOk(h, ids)
    requires (t0, i) in h.commits && k <= i && Agree(ReignLog(h, t0), log, k + 1)
    requires t0 <= t && t in h.reigns
    ensures Agree(log, ReignLog(h, t), k + 1)
  {
    CommitInLeaderLog(h, ids, t0, i, t);
    AgreeShorter(ReignLog(h, t0), ReignLog(h, t), i + 1, k + 1);
    AgreeTrans(log, ReignLog(h, t0), ReignLog(h, t), k + 1);
  }

  /** What is committed in some log by term `term` is in the log of any leader from `term` on. */
  lemma CommittedInLeaderLog(h: History, ids: set<NodeId>, term: nat, log: Log, k: nat, t: nat)
    requires HistoryOk(h, ids)
    requires CommittedUpTo(h, term, log, k)
    requires term <= t && t in h.reigns
    ensures Agree(log, ReignLog(h, t), k + 1)
  {
    var t0: nat, i: nat :| (t0, i) in h.commits && t0 <= term && k <= i && Agree(ReignLog(h, t0), log, k + 1);
    CoveredByCommit(h, ids, t0, i, log, k, t);
  }

  /** Any two committed prefixes agree as far as both go. */
  lemma CommittedPrefixesAgree(h: History, ids: set<NodeId>, ta: nat, a: Log, ka: nat, tb: nat, b: Log, kb: nat)
    requires HistoryOk(h, ids)
    requires CommittedUpTo(h, ta, a, ka) && CommittedUpTo(h, tb, b, kb)
    ensures Agree(a, b, Min(ka, kb) + 1)
  {
    var ua: nat, ia: nat :| (ua, ia) in h.commits && ua <= ta && ka <= ia && Agree(ReignLog(h, ua), a, ka + 1);
    var ub: nat, ib: nat :| (ub, ib) in h.commits && ub <= tb && kb <= ib && Agree(ReignLog(h, ub), b, kb + 1);
    var top := if ua <= ub then ub else ua;
    assert top in h.reigns by { assert CommitOk(h, ids, ua, ia) && CommitOk(h, ids, ub, ib); }
    CoveredByCommit(h, ids, ua, ia, a, ka, top);
    CoveredByCommit(h, ids, ub, ib, b, kb, top);
    MeetInTheMiddle(a, ReignLog(h, top), b, ka + 1, kb + 1);
  }

  lemma MeetInTheMiddle(a: Log, m: Log, b: Log, ka: nat, kb: nat)
    requires Agree(a, m, ka) && Agree(b, m, kb)
    ensures Agree(a, b, Min(ka, kb))
  {
    forall j | 0 <= j < Min(ka, kb) ensures a[j] == b[j] { assert a[j] == m[j] && b[j] == m[j]; }
  }
}
