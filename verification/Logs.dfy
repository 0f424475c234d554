/** Raft logs as values.  Index i of the program is position i - 1 of the sequence. */
module Logs {
  import opened Types

  type Log = seq<LogEntry>

  function LastTerm(log: Log): nat {
    if log == [] then 0 else log[|log| - 1].term
  }

  function TermAt(log: Log, index: nat): nat
    requires index <= |log|
  {
    if index == 0 then 0 else log[index - 1].term
  }

  /** The voter's test of a candidate's log: later last term, or same last term and no shorter. */
  predicate UpToDate(log: Log, index: nat, term: nat) {
    term > LastTerm(log) || (term == LastTerm(log) && index >= |log|)
  }

  /** Does a log hold the entry the leader expects just before the ones it sends? */
  predicate Consistent(log: Log, prevIndex: nat, prevTerm: nat) {
    prevIndex == 0 || (prevIndex <= |log| && log[prevIndex - 1].term == prevTerm)
  }

  /** The follower's truncate-and-append: entries are compared by term only; the first one that
      differs, or that is missing, replaces everything from there on. */
  function Append(log: Log, prevIndex: nat, entries: Log): Log
    requires prevIndex <= |log|
    decreases |entries|
  {
    if entries == [] then log
    else if prevIndex == |log| then log + entries
    else if log[prevIndex].term != entries[0].term then log[..prevIndex] + entries
    else Append(log, prevIndex + 1, entries[1..])
  }

  /** The first k entries sent carry the terms the log has there. */
  predicate AgreesFor(log: Log, prevIndex: nat, entries: Log, k: nat) {
    k <= |entries| && prevIndex + k <= |log| && forall j | 0 <= j < k :: log[prevIndex + j].term == entries[j].term
  }

  lemma AgreesNext(log: Log, prevIndex: nat, entries: Log, k: nat)
    requires entries != [] && prevIndex < |log| && log[prevIndex].term == entries[0].term
    ensures AgreesFor(log, prevIndex, entries, k + 1) <==> AgreesFor(log, prevIndex + 1, entries[1..], k)
  {
    forall j | 0 <= j < k && k < |entries| && prevIndex + k < |log|
      ensures log[prevIndex + 1 + j] == log[prevIndex + (j + 1)] && entries[1..][j] == entries[j + 1]
    {
    }
  }

  /** What is sent replaces the log exactly from the first entry that is missing or has another term;
      if there is none, nothing changes, and a longer log keeps what it has beyond the entries sent. */
  lemma {:induction false} AppendExact(log: Log, prevIndex: nat, entries: Log) returns (k: nat)
    requires prevIndex <= |log|
    ensures AgreesFor(log, prevIndex, entries, k) && !AgreesFor(log, prevIndex, entries, k + 1)
    ensures Append(log, prevIndex, entries) == if k == |entries| then log else log[..prevIndex + k] + entries[k..]
    decreases |entries|
  {
    k := 0;
    if entries != [] && prevIndex < |log| && log[prevIndex].term == entries[0].term {
      var j := AppendExact(log, prevIndex + 1, entries[1..]);
      AgreesNext(log, prevIndex, entries, j);
      AgreesNext(log, prevIndex, entries, j + 1);
      k := j + 1;
      assert entries[1..][j..] == entries[k..];
    } else {
      assert log[..|log|] == log;
    }
  }

  /** A request delivered twice does what it does once. */
  lemma AppendTwice(log: Log, prevIndex: nat, entries: Log)
    requires prevIndex <= |log|
    ensures var once := Append(log, prevIndex, entries);
      prevIndex <= |once| && Append(once, prevIndex, entries) == once
  {
    var k := AppendExact(log, prevIndex, entries);
    var once := Append(log, prevIndex, entries);
    assert AgreesFor(once, prevIndex, entries, |entries|);
    var again := AppendExact(once, prevIndex, entries);
    assert again < |entries| ==> AgreesFor(once, prevIndex, entries, again + 1);
  }

  predicate Sorted(log: Log) {
    forall i, j | 0 <= i < j < |log| :: log[i].term <= log[j].term
  }

  predicate TermsUpTo(log: Log, term: nat) {
    forall i | 0 <= i < |log| :: 1 <= log[i].term <= term
  }

  /** `log` holds the first k entries of `leader`. */
  ghost predicate Holds(log: Log, leader: Log, k: nat) {
    k <= |log| && k <= |leader| && log[..k] == leader[..k]
  }

  /** Log Matching between two logs: equal terms at an index mean equal prefixes up to it. */
  ghost predicate Matching(a: Log, b: Log) {
    forall i | 0 <= i < |a| && i < |b| && a[i].term == b[i].term :: a[..i + 1] == b[..i + 1]
  }

  /** Two logs written by the same leaders: wherever they have a term in common, at whatever two indexes,
      they agree up to the smaller of them. */
  ghost predicate CommonOrigin(a: Log, b: Log) {
    forall i, j | 0 <= i < |a| && 0 <= j < |b| && a[i].term == b[j].term :: Holds(a, b, Min(i, j) + 1)
  }

  ghost predicate Positive(log: Log) {
    forall i | 0 <= i < |log| :: log[i].term > 0
  }

  function Terms(log: Log): set<nat> {
    set e | e in log :: e.term
  }

  lemma OriginMatches(a: Log, b: Log)
    requires CommonOrigin(a, b)
    ensures Matching(a, b)
  {
    forall i | 0 <= i < |a| && i < |b| && a[i].term == b[i].term ensures a[..i + 1] == b[..i + 1] {
      assert Holds(a, b, Min(i, i) + 1);
    }
  }

  /** `log` was cut at `cut`, the first place where it departs from the leader's log. */
  predicate FirstDeparture(log: Log, leader: Log, cut: nat) {
    cut <= |log| && cut < |leader| && log[..cut] == leader[..cut] &&
    (cut == |log| || log[cut].term != leader[cut].term)
  }

  /** Where terms agree with a stretch of the leader's log, so do the entries, and all before them. */
  lemma AgreedPrefix(log: Log, leader: Log, prevIndex: nat, entries: Log, k: nat)
    requires prevIndex + |entries| <= |leader| && entries == leader[prevIndex..prevIndex + |entries|]
    requires Matching(log, leader) && AgreesFor(log, prevIndex, entries, k)
    requires prevIndex <= |log| && log[..prevIndex] == leader[..prevIndex]
    ensures prevIndex + k <= |log| && log[..prevIndex + k] == leader[..prevIndex + k]
  {
    if k > 0 {
      var i := prevIndex + k - 1;
      assert log[prevIndex + (k - 1)].term == entries[k - 1].term == leader[i].term;
      assert log[..i + 1] == leader[..i + 1];
    }
  }

  /** A stretch of the leader's log that passes the consistency check leaves a follower either
      unchanged, already holding the stretch, or with exactly the leader's log up to its end. */
  lemma AppendFromLeader(log: Log, leader: Log, prevIndex: nat, entries: Log) returns (cut: nat)
    requires prevIndex <= |log| && prevIndex + |entries| <= |leader|
    requires Matching(log, leader) && log[..prevIndex] == leader[..prevIndex]
    requires entries == leader[prevIndex..prevIndex + |entries|]
    ensures var end := prevIndex + |entries|; var result := Append(log, prevIndex, entries);
      || (result == log && end <= |log| && log[..end] == leader[..end])
      || (result == leader[..end] && prevIndex <= cut < end && FirstDeparture(log, leader, cut))
  {
    var k := AppendExact(log, prevIndex, entries);
    AgreedPrefix(log, leader, prevIndex, entries, k);
    cut := prevIndex + k;
    if k < |entries| {
      assert entries[k..] == leader[cut..prevIndex + |entries|] && entries[k] == leader[cut];
    }
  }
}
