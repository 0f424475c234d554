/** A follower caps the leader's commit index at its own last log index, not at the last entry the
    request vouches for.  This module says exactly which requests that is sound for. */
module CommitCap {
  import opened Types
  import opened Logs
  import opened Nodes

  function After(log: Log, m: AppendMsg): Log
    requires Consistent(log, m.prevIndex, m.prevTerm)
  {
    Append(log, m.prevIndex, m.entries)
  }

  /** What an accepted request makes of a follower's log. */
  lemma AfterShape(log: Log, m: AppendMsg, leader: Log) returns (cut: nat)
    requires Matching(log, leader) && Stretch(m, leader) && Consistent(log, m.prevIndex, m.prevTerm)
    ensures var end := m.LastIndex(); var result := After(log, m);
      (result == log && end <= |log| && log[..end] == leader[..end]) ||
      (result == leader[..end] && m.prevIndex <= cut < end && FirstDeparture(log, leader, cut))
  {
    assert log[..m.prevIndex] == leader[..m.prevIndex] by {
      if m.prevIndex > 0 {
        assert log[m.prevIndex - 1].term == leader[m.prevIndex - 1].term;
      }
    }
    cut := AppendFromLeader(log, leader, m.prevIndex, m.entries);
  }

  // ----- whole tails -----

  /** Entries of the leader's own term do not occur beyond its log. */
  predicate NotBeyond(log: Log, leader: Log, term: nat) {
    forall i | |leader| <= i < |log| :: log[i].term != term
  }

  /** The whole-tail prefix lemma: a request that reaches into its leader's own term leaves the
      follower's entire log a prefix of the leader's, if no term in it is later. */
  lemma TailPrefix(log: Log, m: AppendMsg, leader: Log)
    requires CommonOrigin(log, leader) && Sorted(log) && TermsUpTo(log, m.term) && NotBeyond(log, leader, m.term)
    requires Stretch(m, leader) && Consistent(log, m.prevIndex, m.prevTerm)
    requires LastTerm(leader) == m.term && m.LastTerm() == m.term && m.LastIndex() > 0
    ensures After(log, m) <= leader
  {
    OriginMatches(log, leader);
    var cut := AfterShape(log, m, leader);
    var end := m.LastIndex();
    if After(log, m) == log {
      assert leader[end - 1].term == m.term;
      assert log[end - 1] == log[..end][end - 1] == leader[..end][end - 1];
      assert log[|log| - 1].term == leader[|leader| - 1].term;
      assert Holds(log, leader, Min(|log| - 1, |leader| - 1) + 1);
      assert log == log[..|log|];
    }
  }

  // ----- the exact condition -----

  /** A follower that agrees with the leader on the first d entries must agree on the next one too, if the
      leader's entries of terms from `top` on are known to agree: no term the follower could depart with is left. */
  predicate Settled(leader: Log, d: nat, top: nat)
    requires d < |leader|
  {
    TermAt(leader, d) >= top ||
    ((d > 0 ==> leader[d].term == leader[d - 1].term) && forall t | TermAt(leader, d) < t < top :: t in Terms(leader))
  }

  /** Everything the request says is committed, beyond the entries it vouches for, is settled. */
  predicate CoversFrom(m: AppendMsg, leader: Log, top: nat) {
    m.leaderCommit <= |leader| && forall d | m.LastIndex() <= d < m.leaderCommit :: Settled(leader, d, top)
  }

  /** What a follower's log may be: written by the same leaders as this leader's log, and with entries of
      terms from `top` on only where it agrees with the first c entries, which leaders from `top` on all hold. */
  ghost predicate FollowerLog(log: Log, leader: Log, top: nat, c: nat) {
    && CommonOrigin(log, leader) && Sorted(log) && Positive(log)
    && forall i | 0 <= i < |log| && log[i].term >= top :: Holds(log, leader, Min(i + 1, c))
  }

  /** One more entry on which the follower has to agree. */
  lemma AgreeNext(log: Log, leader: Log, top: nat, c: nat, d: nat)
    requires Sorted(leader) && FollowerLog(log, leader, top, c) && Holds(log, leader, d)
    requires d < c && d < |log| && d < |leader| && Settled(leader, d, top)
    ensures Holds(log, leader, d + 1)
  {
    var t := log[d].term;
    if t >= top {
      assert Holds(log, leader, Min(d + 1, c));
    } else {
      assert d > 0 ==> log[d - 1] == log[..d][d - 1] == leader[..d][d - 1] == leader[d - 1];
      if t == TermAt(leader, d) {
        assert Holds(log, leader, Min(d, d) + 1);
      } else {
        assert t in Terms(leader);
        var e :| e in leader && e.term == t;
        var j :| 0 <= j < |leader| && leader[j] == e;
        assert j >= d;
        assert Holds(log, leader, Min(d, j) + 1);
      }
    }
  }

  lemma {:induction false} AgreeUpTo(log: Log, leader: Log, top: nat, c: nat, d: nat, e: nat)
    requires Sorted(leader) && FollowerLog(log, leader, top, c) && Holds(log, leader, d)
    requires d <= e <= c && e <= |log| && e <= |leader| && forall x | d <= x < e :: Settled(leader, x, top)
    ensures Holds(log, leader, e)
    decreases e - d
  {
    if d < e {
      AgreeNext(log, leader, top, c, d);
      AgreeUpTo(log, leader, top, c, d + 1, e);
    }
  }

  /** The cap is sound for a covered request. */
  lemma CapHolds(log: Log, m: AppendMsg, leader: Log, top: nat)
    requires Sorted(leader) && FollowerLog(log, leader, top, m.leaderCommit) && Stretch(m, leader)
    requires Consistent(log, m.prevIndex, m.prevTerm) && CoversFrom(m, leader, top)
    ensures Holds(After(log, m), leader, Min(m.leaderCommit, |After(log, m)|))
  {
    OriginMatches(log, leader);
    var cut := AfterShape(log, m, leader);
    var after, end := After(log, m), m.LastIndex();
    var c := Min(m.leaderCommit, |after|);
    if c <= end {
      assert after[..c] == after[..end][..c] == leader[..end][..c] == leader[..c];
    } else {
      AgreeUpTo(log, leader, top, m.leaderCommit, end, c);
    }
  }

  /** The request is sound for every follower it may reach: whatever the follower then commits is the leader's. */
  ghost predicate SoundForAll(m: AppendMsg, leader: Log, top: nat) {
    forall log: Log | FollowerLog(log, leader, top, m.leaderCommit) && Consistent(log, m.prevIndex, m.prevTerm) ::
      Holds(After(log, m), leader, Min(m.leaderCommit, |After(log, m)|))
  }

  /** The cap is sound for every follower exactly when the request is covered.  With `top` the leader's own
      term the sender can look this up in its log; a lower `top` will do if leaders from there on are known to
      hold what is committed. */
  lemma CapExact(m: AppendMsg, leader: Log, top: nat)
    requires Sorted(leader) && Positive(leader) && Stretch(m, leader) && m.leaderCommit <= |leader|
    ensures SoundForAll(m, leader, top) <==> CoversFrom(m, leader, top)
  {
    if CoversFrom(m, leader, top) {
      forall log: Log | FollowerLog(log, leader, top, m.leaderCommit) && Consistent(log, m.prevIndex, m.prevTerm)
        ensures Holds(After(log, m), leader, Min(m.leaderCommit, |After(log, m)|))
      {
        CapHolds(log, m, leader, top);
      }
    } else {
      var d :| m.LastIndex() <= d < m.leaderCommit && !Settled(leader, d, top);
      var t := Departing(leader, d, top);
      MisledFollower(leader, d, t, top, m.leaderCommit);
      MisledCommit(m, leader, d, t);
    }
  }

  /** A term with which a follower can depart after the first d entries. */
  lemma Departing(leader: Log, d: nat, top: nat) returns (t: nat)
    requires d < |leader| && Sorted(leader) && Positive(leader) && !Settled(leader, d, top)
    ensures TermAt(leader, d) <= t < top && 0 < t != leader[d].term
    ensures t == TermAt(leader, d) || t !in Terms(leader)
  {
    if d > 0 && leader[d].term != leader[d - 1].term {
      t := leader[d - 1].term;
    } else {
      t :| TermAt(leader, d) < t < top && t !in Terms(leader);
      assert leader[d] in leader;
    }
  }

  lemma MisledSorted(leader: Log, d: nat, t: nat)
    requires Sorted(leader) && Positive(leader) && d < |leader| && TermAt(leader, d) <= t && 0 < t
    ensures Sorted(leader[..d] + [NoOp(t)]) && Positive(leader[..d] + [NoOp(t)])
  {
    var log := leader[..d] + [NoOp(t)];
    assert forall i | 0 <= i < d :: log[i] == leader[i];
    assert forall i | 0 <= i < d :: leader[i].term <= TermAt(leader, d);
  }

  /** A log that agrees with the leader's on d entries and then departs is a follower's log. */
  lemma MisledFollower(leader: Log, d: nat, t: nat, top: nat, c: nat)
    requires Sorted(leader) && Positive(leader) && d < c <= |leader|
    requires TermAt(leader, d) <= t < top && 0 < t != leader[d].term && (t == TermAt(leader, d) || t !in Terms(leader))
    ensures FollowerLog(leader[..d] + [NoOp(t)], leader, top, c)
  {
    var log := leader[..d] + [NoOp(t)];
    MisledOrigin(leader, d, t);
    MisledSorted(leader, d, t);
    forall i | 0 <= i < |log| && log[i].term >= top
      ensures Holds(log, leader, Min(i + 1, c))
    {
      assert i < d && log[..i + 1] == leader[..i + 1];
    }
  }

  /** Such a follower commits an entry that is not the leader's. */
  lemma MisledCommit(m: AppendMsg, leader: Log, d: nat, t: nat)
    requires Stretch(m, leader) && m.LastIndex() <= d < m.leaderCommit <= |leader| && t != leader[d].term
    requires CommonOrigin(leader[..d] + [NoOp(t)], leader)
    ensures var log := leader[..d] + [NoOp(t)];
      && Consistent(log, m.prevIndex, m.prevTerm)
      && !Holds(After(log, m), leader, Min(m.leaderCommit, |After(log, m)|))
  {
    var log := leader[..d] + [NoOp(t)];
    assert m.prevIndex > 0 ==> log[m.prevIndex - 1] == leader[m.prevIndex - 1];
    OriginMatches(log, leader);
    var cut := AfterShape(log, m, leader);
    assert forall i | 0 <= i < d :: log[i] == leader[i];
    assert After(log, m) == log;
    assert log[..d + 1][d] != leader[..d + 1][d];
  }

  lemma MisledOrigin(leader: Log, d: nat, t: nat)
    requires Sorted(leader) && Positive(leader) && d < |leader|
    requires TermAt(leader, d) <= t && 0 < t != leader[d].term && (t == TermAt(leader, d) || t !in Terms(leader))
    ensures CommonOrigin(leader[..d] + [NoOp(t)], leader)
  {
    var log := leader[..d] + [NoOp(t)];
    forall i, j | 0 <= i < |log| && 0 <= j < |leader| && log[i].term == leader[j].term
      ensures Holds(log, leader, Min(i, j) + 1)
    {
      assert leader[j] in leader;
      if i == d {
        assert j < d;
      }
      assert log[..Min(i, j) + 1] == leader[..Min(i, j) + 1];
    }
  }

  /** Being covered from a higher term is the stronger demand. */
  lemma CoversLower(m: AppendMsg, leader: Log, top: nat, lower: nat)
    requires CoversFrom(m, leader, top) && lower <= top
    ensures CoversFrom(m, leader, lower)
  {
    forall d | m.LastIndex() <= d < m.leaderCommit
      ensures Settled(leader, d, lower)
    {
      assert Settled(leader, d, top);
    }
  }

  /** What a leader appends later changes nothing. */
  lemma CoversGrow(m: AppendMsg, leader: Log, leader': Log, top: nat)
    requires CoversFrom(m, leader, top) && leader <= leader'
    ensures CoversFrom(m, leader', top)
  {
    assert forall t | t in Terms(leader) :: t in Terms(leader');
    forall d | m.LastIndex() <= d < m.leaderCommit
      ensures Settled(leader', d, top)
    {
      assert Settled(leader, d, top);
    }
  }

  // ----- requests of a superseded leader object -----

  /** The log of every leader from `term` on shows that it holds the first c entries: the last of these is no
      later, and no leader up to the present one is unaccounted for. */
  predicate ReachesBack(log: Log, c: nat, term: nat)
    requires c <= |log|
  {
    TermAt(log, c) <= term && forall u | term <= u <= LastTerm(log) :: u in Terms(log)
  }

  /** What the log of the leader of `term` may have become: it ends in that term and has all that the present
      leader's log has of it, has the same origin, and from the present term on holds the first c entries. */
  ghost predicate LeaderLog(other: Log, term: nat, log: Log, c: nat) {
    && CommonOrigin(other, log) && Sorted(other) && Positive(other) && other != [] && LastTerm(other) == term
    && (forall j | 0 <= j < |log| && log[j].term == term :: j < |other|)
    && (term >= LastTerm(log) ==> Holds(other, log, c))
  }

  /** Whatever leaders there have been from `term` on, they hold the first c entries. */
  ghost predicate HeldFromOn(log: Log, c: nat, term: nat) {
    forall other: Log, u: nat | term <= u && LeaderLog(other, u, log, c) :: Holds(other, log, c)
  }

  /** A term that is no earlier than the first c entries and occurs in the log does so at or behind their end. */
  lemma TermHeld(log: Log, c: nat, u: nat) returns (j: nat)
    requires Sorted(log) && c <= |log| && TermAt(log, c) <= u && u in Terms(log)
    ensures j < |log| && log[j].term == u && j + 1 >= c
  {
    var e :| e in log && e.term == u;
    j :| 0 <= j < |log| && log[j] == e;
    if j + 1 < c {
      assert log[j].term <= log[c - 1].term;
      j := c - 1;
    }
  }

  lemma LeaderHolds(other: Log, u: nat, log: Log, c: nat, term: nat)
    requires Sorted(log) && c <= |log| && ReachesBack(log, c, term) && term <= u && LeaderLog(other, u, log, c)
    ensures Holds(other, log, c)
  {
    if u < LastTerm(log) {
      var j := TermHeld(log, c, u);
      var i := |other| - 1;
      assert Holds(other, log, Min(i, j) + 1);
      assert other[..c] == other[..j + 1][..c] == log[..j + 1][..c] == log[..c];
    }
  }

  /** A leader that the present log does not account for may have held nothing of it. */
  lemma UnknownLeader(log: Log, c: nat, u: nat)
    requires Positive(log) && 0 < c <= |log| && 0 < u < LastTerm(log) && u !in Terms(log)
    ensures LeaderLog([NoOp(u)], u, log, c) && !Holds([NoOp(u)], log, c)
  {
    var other := [NoOp(u)];
    forall j | 0 <= j < |log|
      ensures log[j].term != u
    {
      assert log[j] in log;
    }
    assert other[..1][0] != log[..1][0];
  }

  /** An earlier leader had at most what precedes the first later entry. */
  lemma EarlierLeaderLog(log: Log, c: nat, term: nat, j: nat)
    requires Sorted(log) && Positive(log) && j + 1 < c <= |log| && log[j].term == term < log[j + 1].term
    ensures LeaderLog(log[..j + 1], term, log, c) && !Holds(log[..j + 1], log, c)
  {
    var other := log[..j + 1];
    forall i, k | 0 <= i < |other| && 0 <= k < |log| && other[i].term == log[k].term
      ensures Holds(other, log, Min(i, k) + 1)
    {
      assert other[..Min(i, k) + 1] == log[..Min(i, k) + 1];
    }
    assert log[j + 1].term <= LastTerm(log);
  }

  lemma {:induction false} LastOfTerm(log: Log, term: nat, j: nat) returns (k: nat)
    requires Sorted(log) && j < |log| && log[j].term == term < LastTerm(log)
    ensures j <= k && k + 1 < |log| && log[k].term == term < log[k + 1].term
    decreases |log| - j
  {
    if log[j + 1].term == term {
      k := LastOfTerm(log, term, j + 1);
    } else {
      k := j;
    }
  }

  /** A commit index that a request carries under an old term can be trusted, whatever leaders there have been
      since, if and only if the sender's own log reaches back to that term.  For the present term it does. */
  lemma ReachExact(log: Log, c: nat, term: nat)
    requires Sorted(log) && Positive(log) && 0 < c <= |log| && 0 < term
    ensures HeldFromOn(log, c, term) <==> ReachesBack(log, c, term)
  {
    if ReachesBack(log, c, term) {
      forall other: Log, u: nat | term <= u && LeaderLog(other, u, log, c)
        ensures Holds(other, log, c)
      {
        LeaderHolds(other, u, log, c, term);
      }
    } else if u: nat :| term <= u <= LastTerm(log) && u !in Terms(log) {
      assert log[|log| - 1] in log;
      UnknownLeader(log, c, u);
    } else {
      assert log[c - 1].term <= LastTerm(log) && term in Terms(log);
      var e :| e in log && e.term == term;
      var i :| 0 <= i < |log| && log[i] == e;
      var j := LastOfTerm(log, term, i);
      assert log[j].term < log[c - 1].term;
      EarlierLeaderLog(log, c, term, j);
    }
  }

  /** What the sender of a request can look up in its own log: that its commit index reaches back to the term it
      is sent in, and that the request is covered. */
  predicate Checked(m: AppendMsg, log: Log) {
    m.leaderCommit == 0 ||
    (m.leaderCommit <= |log| && ReachesBack(log, m.leaderCommit, m.term) && CoversFrom(m, log, m.term))
  }

  /** The check is exact: what any follower commits on accepting the request is the sender's, and no leader that
      it may hear from afterwards lacks it, if and only if the request passes. */
  lemma CheckExact(m: AppendMsg, log: Log)
    requires Sorted(log) && Positive(log) && Stretch(m, log) && m.leaderCommit <= |log| && 0 < m.term
    ensures Checked(m, log) <==> SoundForAll(m, log, m.term) && HeldFromOn(log, m.leaderCommit, m.term)
  {
    CapExact(m, log, m.term);
    if m.leaderCommit > 0 {
      ReachExact(log, m.leaderCommit, m.term);
    }
  }
}
