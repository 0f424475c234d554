/** The leader's commit rule: sort the match indexes and take the one a majority has reached. */
module Commitment {
  import opened Types
  import opened Quorums
  import opened Logs

  function Insert(x: nat, s: seq<nat>): seq<nat> {
    if s == [] || x <= s[0] then [x] + s else [s[0]] + Insert(x, s[1..])
  }

  /** What the library sort leaves in the slice. */
  function Ordered(s: seq<nat>): seq<nat> {
    if s == [] then [] else Insert(s[0], Ordered(s[1..]))
  }

  predicate Ascending(s: seq<nat>) {
    forall i, j | 0 <= i < j < |s| :: s[i] <= s[j]
  }

  /** The middle element, at n - n/2 - 1, of the sorted match indexes. */
  function Candidate(matched: seq<nat>): nat
    requires matched != []
  {
    OrderedFacts(matched, 0);
    Ordered(matched)[|matched| - |matched| / 2 - 1]
  }

  /** The nodes known to hold the leader's entries up to index k. */
  function Holders(matched: seq<nat>, k: nat): set<nat> {
    set p: nat | p < |matched| && matched[p] >= k
  }

  function Count(s: seq<nat>, k: nat): nat {
    if s == [] then 0 else (if s[0] >= k then 1 else 0) + Count(s[1..], k)
  }

  lemma {:induction false} InsertFacts(x: nat, s: seq<nat>, k: nat)
    requires Ascending(s)
    ensures |Insert(x, s)| == |s| + 1 && Ascending(Insert(x, s))
    ensures Insert(x, s)[0] == if s == [] || x <= s[0] then x else s[0]
    ensures Count(Insert(x, s), k) == Count(s, k) + (if x >= k then 1 else 0)
  {
    if s != [] && x > s[0] {
      InsertFacts(x, s[1..], k);
      var rest := Insert(x, s[1..]);
      assert Insert(x, s)[1..] == rest;
      assert forall j | 0 <= j < |rest| :: rest[0] <= rest[j];
    } else {
      assert ([x] + s)[1..] == s;
    }
  }

  lemma {:induction false} OrderedFacts(s: seq<nat>, k: nat)
    ensures |Ordered(s)| == |s| && Ascending(Ordered(s)) && Count(Ordered(s), k) == Count(s, k)
  {
    if s != [] {
      OrderedFacts(s[1..], k);
      InsertFacts(s[0], Ordered(s[1..]), k);
    }
  }

  lemma {:induction false} CountHolders(s: seq<nat>, k: nat)
    ensures |Holders(s, k)| == Count(s, k)
  {
    if s == [] {
      assert Holders(s, k) == {};
    } else {
      var front, last := s[..|s| - 1], s[|s| - 1];
      CountHolders(front, k);
      CountLast(s, k);
      assert Holders(s, k) == Holders(front, k) + if last >= k then {|s| - 1} else {};
    }
  }

  lemma {:induction false} CountLast(s: seq<nat>, k: nat)
    requires s != []
    ensures Count(s, k) == Count(s[..|s| - 1], k) + (if s[|s| - 1] >= k then 1 else 0)
  {
    if |s| > 1 {
      CountLast(s[1..], k);
      assert s[1..][..|s| - 2] == s[..|s| - 1][1..];
    }
  }

  /** In an ascending sequence position i reaches k exactly when all but i elements do. */
  lemma {:induction false} CountAscending(s: seq<nat>, i: nat, k: nat)
    requires Ascending(s) && i < |s|
    ensures s[i] >= k <==> Count(s, k) >= |s| - i
    ensures Count(s, k) <= |s|
  {
    if |s| == 1 {
    } else if i == 0 {
      CountAscending(s[1..], 0, k);
    } else {
      CountAscending(s[1..], i - 1, k);
      if s[0] >= k {
        CountAscending(s[1..], 0, k);
      }
    }
  }

  /** The sorted-median rule is exact for every cluster size: the candidate is the greatest index
      that a majority of the nodes have reached. */
  lemma CandidateExact(matched: seq<nat>, k: nat)
    requires matched != []
    ensures k <= Candidate(matched) <==> Quorum(Holders(matched, k), |matched|)
  {
    OrderedFacts(matched, k);
    CountHolders(matched, k);
    CountAscending(Ordered(matched), |matched| - |matched| / 2 - 1, k);
  }

  /** May the leader of `term` commit up to `index`?  The rule of Figure 2 of the Raft paper. */
  ghost predicate MayCommit(log: Log, term: nat, matched: seq<nat>, commitIndex: nat, index: nat) {
    commitIndex < index <= |log| && log[index - 1].term == term && Quorum(Holders(matched, index), |matched|)
  }

  /** The new commit index: the candidate if it beats the old one and was written in this term. */
  function Advance(log: Log, term: nat, matched: seq<nat>, commitIndex: nat): nat {
    if matched == [] then commitIndex else
    var candidate := Candidate(matched);
    if candidate == 0 || candidate > |log| || log[candidate - 1].term != term || candidate <= commitIndex
    then commitIndex else candidate
  }

  /** Looking only at the candidate loses nothing: on a sorted log of terms up to the current one,
      the commit index moves exactly when some index qualifies, and then to the greatest of them. */
  lemma AdvanceExact(log: Log, term: nat, matched: seq<nat>, commitIndex: nat, index: nat)
    requires matched != [] && Sorted(log)
    requires forall i | 0 <= i < |log| :: log[i].term <= term
    requires forall p | 0 <= p < |matched| :: matched[p] <= |log|
    ensures var c := Advance(log, term, matched, commitIndex);
            && (c != commitIndex ==> MayCommit(log, term, matched, commitIndex, c))
            && (MayCommit(log, term, matched, commitIndex, index) ==> index <= c)
  {
    var candidate := Candidate(matched);
    CandidateExact(matched, candidate);
    CandidateExact(matched, index);
    CandidateExact(matched, |log| + 1);
    assert Holders(matched, |log| + 1) == {};
  }
}
