/** What the handlers do on a node whose log library has dropped the beginning of the log, read against the
    full log, and when that is what they do on the full log. */
module Compaction {
  import opened Types
  import opened Logs
  import opened Quorums
  import opened Nodes
  import Commitment

  /** Below the dropped part nothing can be compared, and what is sent ends up behind everything else. */
  function AppendHeld(log: Log, base: nat, prevIndex: nat, more: Log): Log
    requires prevIndex <= |log|
  {
    if prevIndex >= base then Append(log, prevIndex, more) else log + more
  }

  /** The follower's part of an AppendEntries call when the log below `boundary` may be gone: at 0 everything
      is accepted, between 1 and the boundary nothing is. */
  function TakeHeld(f: Node, boundary: nat, base: nat, m: AppendMsg): (Node, bool) {
    if m.prevIndex == 0 then (Accepted(f, m, AppendHeld(f.log, base, 0, m.entries)), true)
    else if m.prevIndex < boundary then (f, false)
    else if !Consistent(f.log, m.prevIndex, m.prevTerm) then (f, false)
    else (Accepted(f, m, AppendHeld(f.log, base, m.prevIndex, m.entries)), true)
  }

  /** The log is as given, and the leader's commit index is taken over and acted on. */
  function Accepted(v: Node, m: AppendMsg, log: Log): Node {
    ApplyCommitted(RaiseCommit(v.(log := log), m.leaderCommit))
  }

  /** On the boundary and above it nobody can tell that the rest is gone; below it, only a request at 0 that
      leaves nothing to compare is treated alike. */
  lemma TakeHeldExact(f: Node, boundary: nat, base: nat, m: AppendMsg)
    requires base <= boundary <= |f.log|
    ensures m.prevIndex >= boundary ==> TakeHeld(f, boundary, base, m) == TakeAsFollower(f, m)
    ensures base == 0 == m.prevIndex ==> TakeHeld(f, boundary, base, m) == TakeAsFollower(f, m)
    ensures 0 < m.prevIndex < boundary ==>
      (TakeHeld(f, boundary, base, m) == TakeAsFollower(f, m) <==> !Consistent(f.log, m.prevIndex, m.prevTerm))
  {
  }

  function HandleHeld(id: nat, v: Node, boundary: nat, base: nat, m: AppendMsg): (Node, bool) {
    if m.term < v.currentTerm || (v.role.Leader? && m.term == v.currentTerm && m.from == id) then (v, false)
    else TakeHeld(Receive(v, m), boundary, base, m)
  }

  /** So the whole handler does on a compacted node what it does on a full one, on the boundary and above it, and
      at 0 if nothing has been dropped. */
  lemma HandleHeldExact(id: nat, v: Node, boundary: nat, base: nat, m: AppendMsg)
    requires base <= boundary <= |v.log|
    ensures m.prevIndex >= boundary || base == 0 == m.prevIndex ==>
      HandleHeld(id, v, boundary, base, m) == HandleAppend(id, v, m)
  {
    TakeHeldExact(Receive(v, m), boundary, base, m);
  }

  /** What the handler does, field by field, whatever has been dropped: nothing for an older term or the leader's
      own request; otherwise the node follows in the request's term. */
  lemma HandleHeldJoins(id: nat, v: Node, boundary: nat, base: nat, m: AppendMsg)
    requires base <= boundary <= |v.log|
    ensures var (v', ok) := HandleHeld(id, v, boundary, base, m);
      if m.term < v.currentTerm || (v.role.Leader? && m.term == v.currentTerm && m.from == id) then v' == v && !ok
      else
        && v'.role.Follower? && v'.currentTerm == m.term
        && v'.votedFor == (if m.term > v.currentTerm then None else v.votedFor)
        && v'.roleId == (if v.role.Follower? && m.term == v.currentTerm then v.roleId else v.roleId + 1)
        && v'.leaderships == v.leaderships && v'.rash == v.rash
        && (ok <==> m.prevIndex == 0 ||
                    (boundary <= m.prevIndex <= |v.log| && v.log[m.prevIndex - 1].term == m.prevTerm))
  {
  }

  /** A refused request changes neither the log nor what is committed and applied. */
  lemma HandleHeldRefuses(id: nat, v: Node, boundary: nat, base: nat, m: AppendMsg)
    requires !HandleHeld(id, v, boundary, base, m).1
    ensures var v' := HandleHeld(id, v, boundary, base, m).0;
      v'.log == v.log && v'.commitIndex == v.commitIndex && v'.lastApplied == v.lastApplied && v'.applied == v.applied
  {
  }

  lemma HandleHeldLog(id: nat, v: Node, boundary: nat, base: nat, m: AppendMsg)
    requires HandleHeld(id, v, boundary, base, m).1
    ensures m.prevIndex <= |v.log|
    ensures HandleHeld(id, v, boundary, base, m).0.log == AppendHeld(v.log, base, m.prevIndex, m.entries)
  {
  }

  /** The log after is the log before with what was sent in place of everything from the first entry on that is
      missing or has another term, k entries into the request; if there is none, it is the same. */
  predicate Replaces(before: Log, prevIndex: nat, more: Log, k: nat, after: Log)
    requires prevIndex <= |before|
  {
    && k <= |more| && prevIndex + k <= |before|
    && (forall j | 0 <= j < k :: before[prevIndex + j].term == more[j].term)
    && (k < |more| && prevIndex + k < |before| ==> before[prevIndex + k].term != more[k].term)
    && after == if k == |more| then before else before[..prevIndex + k] + more[k..]
  }

  /** The log is replaced from the first entry that is missing or differs, or, if the request begins below what is
      held, everything is written behind the rest. */
  lemma AppendHeldExact(log: Log, base: nat, prevIndex: nat, more: Log)
    requires prevIndex <= |log|
    ensures var after := AppendHeld(log, base, prevIndex, more);
      if prevIndex < base then after == log + more else exists k :: Replaces(log, prevIndex, more, k, after)
  {
    var k := AppendExact(log, prevIndex, more);
    assert prevIndex >= base ==> Replaces(log, prevIndex, more, k, AppendHeld(log, base, prevIndex, more));
  }

  lemma HandleHeldWrites(id: nat, v: Node, boundary: nat, base: nat, m: AppendMsg)
    requires HandleHeld(id, v, boundary, base, m).1
    ensures var after := HandleHeld(id, v, boundary, base, m).0.log;
      m.prevIndex <= |v.log| &&
      if m.prevIndex < base then after == v.log + m.entries
      else exists k :: Replaces(v.log, m.prevIndex, m.entries, k, after)
  {
    HandleHeldLog(id, v, boundary, base, m);
    AppendHeldExact(v.log, base, m.prevIndex, m.entries);
  }

  lemma AcceptedCommits(f: Node, m: AppendMsg, log: Log)
    ensures var v' := Accepted(f, m, log);
      && v'.log == log
      && v'.commitIndex == (if log == [] then f.commitIndex else Max(f.commitIndex, Min(m.leaderCommit, |log|)))
      && v'.lastApplied == Max(f.lastApplied, Min(v'.commitIndex, |log|))
      && v'.applied == f.applied + (if f.lastApplied < v'.lastApplied then log[f.lastApplied..v'.lastApplied] else [])
  {
  }

  lemma HandleHeldAccepts(id: nat, v: Node, boundary: nat, base: nat, m: AppendMsg) returns (log: Log)
    requires HandleHeld(id, v, boundary, base, m).1
    ensures HandleHeld(id, v, boundary, base, m).0 == Accepted(Receive(v, m), m, log)
  {
    log := AppendHeld(v.log, base, m.prevIndex, m.entries);
  }

  lemma ReceiveKeeps(v: Node, m: AppendMsg)
    ensures var f := Receive(v, m);
      f.log == v.log && f.commitIndex == v.commitIndex && f.lastApplied == v.lastApplied && f.applied == v.applied
  {
  }

  /** And it raises the commit index to the leader's, capped by the log, and applies what is committed. */
  lemma HandleHeldCommits(id: nat, v: Node, boundary: nat, base: nat, m: AppendMsg)
    requires HandleHeld(id, v, boundary, base, m).1
    ensures var v' := HandleHeld(id, v, boundary, base, m).0;
      && v'.commitIndex == (if v'.log == [] then v.commitIndex
                            else Max(v.commitIndex, Min(m.leaderCommit, |v'.log|)))
      && v'.lastApplied == Max(v.lastApplied, Min(v'.commitIndex, |v'.log|))
      && v'.applied == v.applied + (if v.lastApplied < v'.lastApplied then v'.log[v.lastApplied..v'.lastApplied]
                                    else [])
  {
    var log := HandleHeldAccepts(id, v, boundary, base, m);
    ReceiveKeeps(v, m);
    AcceptedCommits(Receive(v, m), m, log);
  }

  /** A candidate index that has been dropped cannot be looked at, and then nothing is committed. */
  function TryAdvanceHeld(v: Node, reign: nat, base: nat): Node
    requires reign in v.leaderships
  {
    var matched := v.leaderships[reign].matched;
    if matched != [] && Commitment.Candidate(matched) <= base then v else TryAdvance(v, reign)
  }

  /** Only a node whose commit index is still behind what it has dropped can miss a commit by that. */
  lemma AdvanceHeldFull(v: Node, reign: nat, base: nat)
    requires reign in v.leaderships && (base == 0 || base <= v.commitIndex)
    ensures TryAdvanceHeld(v, reign, base) == TryAdvance(v, reign)
  {
  }

  /** The commit index has moved from `from` to the greatest index that a majority has reached, if the entry there
      is still held and Figure 2's rule allows it, and otherwise has stayed. */
  ghost predicate Advanced(log: Log, term: nat, matched: seq<nat>, base: nat, from: nat, to: nat) {
    && (matched == [] ==> to == from)
    && forall c: nat | Quorum(Commitment.Holders(matched, c), |matched|) &&
                       !Quorum(Commitment.Holders(matched, c + 1), |matched|) ::
         to == if base < c && Commitment.MayCommit(log, term, matched, from, c) then c else from
  }

  /** It has moved exactly if the rule allows some index that is still held, and to the greatest of them. */
  ghost predicate Greatest(log: Log, term: nat, matched: seq<nat>, base: nat, from: nat, to: nat) {
    && (to != from ==> base < to && Commitment.MayCommit(log, term, matched, from, to))
    && forall c: nat | base < c && Commitment.MayCommit(log, term, matched, from, c) :: c <= to
  }

  /** What every leader of a run meets: terms that do not fall and are no later than its own, and match indexes
      within its log. */
  ghost predicate InOrder(log: Log, term: nat, matched: seq<nat>) {
    && Sorted(log) && (forall i | 0 <= i < |log| :: log[i].term <= term)
    && forall p | 0 <= p < |matched| :: matched[p] <= |log|
  }

  lemma AdvanceHeldExact(v: Node, reign: nat, base: nat, c: nat)
    requires reign in v.leaderships
    requires var matched := v.leaderships[reign].matched;
      Quorum(Commitment.Holders(matched, c), |matched|) && !Quorum(Commitment.Holders(matched, c + 1), |matched|)
    ensures var matched := v.leaderships[reign].matched;
      TryAdvanceHeld(v, reign, base).commitIndex ==
        if base < c && Commitment.MayCommit(v.log, v.currentTerm, matched, v.commitIndex, c) then c else v.commitIndex
  {
    var matched := v.leaderships[reign].matched;
    if matched != [] {
      Commitment.CandidateExact(matched, c);
      Commitment.CandidateExact(matched, c + 1);
    }
  }

  lemma AdvanceHeldGreatest(v: Node, reign: nat, base: nat, index: nat)
    requires reign in v.leaderships && InOrder(v.log, v.currentTerm, v.leaderships[reign].matched)
    ensures var c, matched := TryAdvanceHeld(v, reign, base).commitIndex, v.leaderships[reign].matched;
      && (c != v.commitIndex ==> base < c && Commitment.MayCommit(v.log, v.currentTerm, matched, v.commitIndex, c))
      && (base < index && Commitment.MayCommit(v.log, v.currentTerm, matched, v.commitIndex, index) ==> index <= c)
  {
    var matched := v.leaderships[reign].matched;
    if matched != [] {
      Commitment.AdvanceExact(v.log, v.currentTerm, matched, v.commitIndex, index);
      Commitment.CandidateExact(matched, index);
    }
  }

  /** What a leader object does to the commit index, said by Figure 2's rule and nothing else. */
  lemma AdvanceHeldFacts(v: Node, reign: nat, base: nat)
    requires reign in v.leaderships
    ensures var c, matched := TryAdvanceHeld(v, reign, base).commitIndex, v.leaderships[reign].matched;
      && TryAdvanceHeld(v, reign, base) == v.(commitIndex := c)
      && Advanced(v.log, v.currentTerm, matched, base, v.commitIndex, c)
      && (InOrder(v.log, v.currentTerm, matched) ==>
            Greatest(v.log, v.currentTerm, matched, base, v.commitIndex, c))
  {
    var matched := v.leaderships[reign].matched;
    forall c: nat | Quorum(Commitment.Holders(matched, c), |matched|) &&
                    !Quorum(Commitment.Holders(matched, c + 1), |matched|)
      ensures TryAdvanceHeld(v, reign, base).commitIndex ==
        if base < c && Commitment.MayCommit(v.log, v.currentTerm, matched, v.commitIndex, c) then c else v.commitIndex
    {
      AdvanceHeldExact(v, reign, base, c);
    }
    if InOrder(v.log, v.currentTerm, matched) {
      AdvanceHeldGreatest(v, reign, base, 0);
      forall c: nat | base < c && Commitment.MayCommit(v.log, v.currentTerm, matched, v.commitIndex, c)
        ensures c <= TryAdvanceHeld(v, reign, base).commitIndex
      {
        AdvanceHeldGreatest(v, reign, base, c);
      }
    }
  }

  /** A new leader commits nothing at once, unless it is alone, and then everything. */
  lemma WonCommits(id: nat, n: nat, v: Node, base: nat)
    requires id < n && base <= |v.log|
    ensures var w := BecomeLeader(id, n, v);
      TryAdvanceHeld(w, w.roleId, base) == if n > 1 then w else w.(commitIndex := Max(v.commitIndex, |w.log|))
  {
    var w := BecomeLeader(id, n, v);
    var matched := w.leaderships[w.roleId].matched;
    assert matched[id] == |w.log| && forall p | 0 <= p < n && p != id :: matched[p] == 0;
    AdvanceHeldFacts(w, w.roleId, base);
    if n > 1 {
      assert Commitment.Holders(matched, 1) == {id};
      Commitment.CandidateExact(matched, 1);
    } else {
      assert Commitment.Holders(matched, |w.log|) == {0} && Commitment.Holders(matched, |w.log| + 1) == {};
    }
  }

  /** A term whose entries have all been dropped is not found. */
  function BackOffHeld(log: Log, base: nat, next: nat, conflictIndex: nat, conflictTerm: nat): nat {
    if next <= 1 then next
    else
      var last := LastIndexOfTerm(log, conflictTerm);
      Max(1, if last > base then last + 1 else conflictIndex)
  }

  function NoteRejectionHeld(v: Node, base: nat, reign: nat, peer: nat, conflictIndex: nat, conflictTerm: nat): Node
    requires reign in v.leaderships && peer < |v.leaderships[reign].next|
  {
    var o := v.leaderships[reign];
    v.(leaderships := v.leaderships[reign :=
      o.(next := o.next[peer := BackOffHeld(v.log, base, o.next[peer], conflictIndex, conflictTerm)])])
  }

  /** With nothing dropped this is the back-off of the full log. */
  lemma BackOffHeldFull(log: Log, next: nat, conflictIndex: nat, conflictTerm: nat)
    ensures BackOffHeld(log, 0, next, conflictIndex, conflictTerm) == BackOff(log, next, conflictIndex, conflictTerm)
  {
  }

  lemma NoteRejectionFull(v: Node, reign: nat, peer: nat, conflictIndex: nat, conflictTerm: nat)
    requires reign in v.leaderships && peer < |v.leaderships[reign].next|
    ensures NoteRejectionHeld(v, 0, reign, peer, conflictIndex, conflictTerm) ==
      NoteRejection(v, reign, peer, conflictIndex, conflictTerm)
  {
  }

  /** Index i holds the last entry of the term, and no entry behind it is of an earlier one. */
  predicate LastOf(log: Log, term: nat, i: nat) {
    0 < term && 0 < i <= |log| && log[i - 1].term == term && forall j | i <= j < |log| :: log[j].term > term
  }

  lemma {:induction false} LastOfExact(log: Log, term: nat, i: nat)
    ensures var last := LastIndexOfTerm(log, term);
      && (last > 0 ==> LastOf(log, term, last)) && (LastOf(log, term, i) ==> last == i)
    decreases |log|
  {
    if term > 0 && log != [] && log[|log| - 1].term > term {
      var front := log[..|log| - 1];
      LastOfExact(front, term, i);
      assert LastOf(log, term, i) ==> LastOf(front, term, i);
    }
  }

  /** The next index goes to just behind the last entry of the conflicting term, if that is still held, and
      otherwise to the conflict index, but never below 1; at 1 it stays. */
  lemma BackOffHeldExact(log: Log, base: nat, next: nat, conflictIndex: nat, conflictTerm: nat, i: nat)
    ensures var next' := BackOffHeld(log, base, next, conflictIndex, conflictTerm);
      && (next <= 1 ==> next' == next)
      && (next > 1 && base < i && LastOf(log, conflictTerm, i) ==> next' == i + 1)
      && (next > 1 && (forall i | base < i :: !LastOf(log, conflictTerm, i)) ==> next' == Max(1, conflictIndex))
  {
    LastOfExact(log, conflictTerm, i);
  }

  /** Where a rejection takes the next index, without the walk that finds it. */
  ghost predicate WentBack(log: Log, base: nat, next: nat, conflictIndex: nat, conflictTerm: nat, next': nat) {
    && (next <= 1 ==> next' == next)
    && (forall i: nat | next > 1 && base < i && LastOf(log, conflictTerm, i) :: next' == i + 1)
    && (next > 1 && (forall i: nat | base < i :: !LastOf(log, conflictTerm, i)) ==> next' == Max(1, conflictIndex))
  }

  lemma BackOffHeldWent(log: Log, base: nat, next: nat, conflictIndex: nat, conflictTerm: nat)
    ensures WentBack(log, base, next, conflictIndex, conflictTerm,
                     BackOffHeld(log, base, next, conflictIndex, conflictTerm))
  {
    BackOffHeldExact(log, base, next, conflictIndex, conflictTerm, 0);
    forall i: nat | next > 1 && base < i && LastOf(log, conflictTerm, i)
      ensures BackOffHeld(log, base, next, conflictIndex, conflictTerm) == i + 1
    {
      BackOffHeldExact(log, base, next, conflictIndex, conflictTerm, i);
    }
  }

  /** The backward walk over the end of a log finds what the walk over all of it finds there. */
  lemma {:induction false} HeldIndexOfTerm(log: Log, base: nat, term: nat)
    requires base <= |log|
    ensures LastIndexOfTerm(log[base..], term) ==
      var last := LastIndexOfTerm(log, term); if last > base then last - base else 0
    decreases |log|
  {
    LastIndexBound(log, term);
    if term != 0 && base < |log| && log[|log| - 1].term > term {
      HeldIndexOfTerm(log[..|log| - 1], base, term);
      assert log[base..][..|log| - 1 - base] == log[..|log| - 1][base..];
    }
  }

  lemma {:induction false} LastIndexBound(log: Log, term: nat)
    ensures LastIndexOfTerm(log, term) <= |log|
    decreases |log|
  {
    if log != [] {
      LastIndexBound(log[..|log| - 1], term);
    }
  }

  /** What a refused request reports: nothing below the boundary is looked at; beyond the end of the log, the
      index after it; otherwise the term found there and the first index of its run of equal terms. */
  predicate Reported(log: Log, boundary: nat, prevIndex: nat, conflictIndex: nat, conflictTerm: nat) {
    if prevIndex <= boundary then conflictIndex == boundary + 1 && conflictTerm == 0
    else if prevIndex > |log| then conflictIndex == |log| + 1 && conflictTerm == 0
    else conflictTerm == log[prevIndex - 1].term && conflictIndex == RunStart(log, prevIndex, boundary)
  }

  lemma {:induction false} RunStartExact(log: Log, index: nat, floor: nat)
    requires floor < index <= |log|
    ensures var r := RunStart(log, index, floor);
      && floor < r <= index && (forall i | r <= i < index :: log[i].term == log[index - 1].term)
      && log[r - 1].term == log[index - 1].term
      && (r > 1 && r > floor + 1 ==> log[r - 2].term != log[index - 1].term)
    decreases index
  {
    if index > 1 && index > floor + 1 && log[index - 2].term == log[index - 1].term {
      RunStartExact(log, index - 1, floor);
    }
  }

  /** What a refusal says where the entry is held: its term, and the first index of the run of that term that ends
      there, looking no further than the boundary. */
  lemma ReportedExact(log: Log, boundary: nat, prevIndex: nat, conflictIndex: nat, conflictTerm: nat)
    requires boundary < prevIndex <= |log| && Reported(log, boundary, prevIndex, conflictIndex, conflictTerm)
    ensures boundary < conflictIndex <= prevIndex && conflictTerm == log[prevIndex - 1].term
    ensures forall i | conflictIndex - 1 <= i < prevIndex :: log[i].term == conflictTerm
    ensures conflictIndex > 1 && conflictIndex > boundary + 1 ==> log[conflictIndex - 2].term != conflictTerm
  {
    RunStartExact(log, prevIndex, boundary);
  }
}
