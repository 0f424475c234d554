/** The handlers as the program runs them, on mutable state with a compacted log.  Each is proved to do
    what its function in module Nodes says, read against the node's full, uncompacted log. */
module RaftNode {
  import opened Types
  import opened Logs
  import opened Quorums
  import opened Nodes
  import opened Sessions
  import opened Handlers
  import opened Compaction
  import Commitment
  import LogEntryCodec

  lemma AppendUnfold(log: Log, prevIndex: nat, more: Log)
    requires prevIndex <= |log| && more != []
    ensures Append(log, prevIndex, more) ==
      if prevIndex == |log| || log[prevIndex].term != more[0].term then log[..prevIndex] + more
      else Append(log, prevIndex + 1, more[1..])
  {
    assert log[..|log|] == log;
  }

  /** The entries after `from`, up to `to`. */
  function Between(log: Log, from: nat, to: nat): Log {
    if from <= to <= |log| then log[from..to] else []
  }

  /** From `from` on, what has been applied are the log's entries, in order and not beyond `limit`. */
  predicate AppliedSince(log: Log, from: nat, before: Log, limit: nat, lastApplied: nat, since: Log) {
    && from <= lastApplied && (lastApplied <= limit || lastApplied == from)
    && since == before + Between(log, from, lastApplied)
  }

  lemma ReplayNone(m: Machine)
    ensures Replay(m, []) == m
  {
  }

  lemma AppliedInParts(covered: Log, since: Log, more: Log)
    ensures covered + (since + more) == (covered + since) + more
  {
  }

  lemma ApplyShape(v: Node)
    ensures var upTo := Min(v.commitIndex, |v.log|);
      ApplyCommitted(v) == v.(lastApplied := Max(v.lastApplied, upTo),
                              applied := v.applied + Between(v.log, v.lastApplied, upTo))
  {
  }

  lemma AppliedOneMore(log: Log, from: nat, before: Log, limit: nat, lastApplied: nat, since: Log)
    requires AppliedSince(log, from, before, limit, lastApplied, since) && lastApplied < |log| && lastApplied < limit
    ensures AppliedSince(log, from, before, limit, lastApplied + 1, since + [log[lastApplied]])
  {
    assert log[from..lastApplied + 1] == log[from..lastApplied] + [log[lastApplied]];
  }

  /** Appending at `prevIndex` leaves the entries up to there as they are. */
  lemma {:induction false} AppendLength(log: Log, prevIndex: nat, more: Log)
    requires prevIndex <= |log|
    ensures prevIndex <= |Append(log, prevIndex, more)| && Append(log, prevIndex, more)[..prevIndex] == log[..prevIndex]
    decreases |more|
  {
    if more != [] && prevIndex < |log| && log[prevIndex].term == more[0].term {
      AppendLength(log, prevIndex + 1, more[1..]);
      var after := Append(log, prevIndex, more);
      assert after[..prevIndex] == after[..prevIndex + 1][..prevIndex] == log[..prevIndex + 1][..prevIndex];
    }
  }

  lemma AppendTermAt(log: Log, prevIndex: nat, more: Log, index: nat)
    requires index <= prevIndex <= |log|
    ensures index <= |Append(log, prevIndex, more)| && TermAt(Append(log, prevIndex, more), index) == TermAt(log, index)
  {
    AppendLength(log, prevIndex, more);
    var after := Append(log, prevIndex, more);
    assert index > 0 ==> after[index - 1] == after[..prevIndex][index - 1] == log[..prevIndex][index - 1];
  }

  lemma SameUpdate(s: seq<nat>, i: nat)
    requires i < |s|
    ensures s[i := s[i]] == s
  {
  }

  class Raft {
    const id: nat
    const size: nat                          // nodes in the cluster
    const maxBatch: nat

    var currentTerm: nat                     // durable
    var votedFor: Option<nat>
    var base: nat                            // the log library has dropped entries 1 to base
    var entries: Log
    var snapshotIndex: nat
    var snapshotTerm: nat

    var role: Role                           // volatile
    var roleEpoch: nat
    var votes: nat
    var leaderships: map<nat, LeaderObject>  // leader objects still referred to, by epoch
    var commitIndex: nat
    var lastApplied: nat
    var fed: seq<Command>                    // what the state machine stands for
    var sessions: Table

    ghost var history: Log                   // the log as if nothing had been compacted
    ghost var counted: set<nat>
    ghost var applied: Log
    ghost var rash: bool
    ghost var start: Machine                 // the machine the snapshot gave at start-up
    ghost var covered: Log                   // the entries that snapshot stands for
    ghost var since: Log                     // what has been applied after it

    /** What the library still holds is the end of the full log. */
    ghost predicate LogOk()
      reads this`base, this`entries, this`history
    {
      base <= |history| && entries == history[base..] && (entries == [] ==> history == [])
    }

    /** The state machine has seen exactly what has been applied since start-up. */
    ghost predicate MachineOk()
      reads this`fed, this`sessions, this`applied, this`base, this`lastApplied, this`start, this`covered, this`since
    {
      base <= lastApplied && applied == covered + since && Machine(fed, sessions) == Replay(start, since)
    }

    ghost predicate VotesOk()
      reads this`votes, this`counted
    {
      votes == |counted|
    }

    ghost predicate LogValid()
      reads this
    {
      LogOk() && MachineOk() && VotesOk() && base <= snapshotIndex
    }

    ghost predicate Valid()
      reads this
    {
      LogValid() && snapshotIndex <= |history| && snapshotIndex <= lastApplied &&
      snapshotTerm == TermAt(history, snapshotIndex)
    }

    ghost function Abs(): Node
      reads this
    {
      Node(currentTerm, votedFor, history, role, roleEpoch, counted, leaderships, commitIndex, lastApplied,
           applied, rash)
    }

    /** Start-up.  The durable term and vote are read back.  A snapshot on disk (index 0: there is none)
        gives a state machine that stands for `covered`, but no session table, and sets the commit index and
        the last applied index.  Then every later entry of the log, committed or not, is replayed. */
    constructor (id: nat, size: nat, maxBatch: nat, term: nat, vote: Option<nat>, base: nat, held: Log,
                 snapshotIndex: nat, snapshotTerm: nat, image: seq<Command>,
                 ghost log: Log, ghost covered: Log, ghost rash: bool)
      requires base <= snapshotIndex == |covered| && base <= |log| && held == log[base..] && (held == [] ==> log == [])
      requires snapshotIndex == 0 ==> snapshotTerm == 0 && image == []
      ensures LogValid() && this.id == id && this.size == size && this.maxBatch == maxBatch && this.base == base
      ensures Valid() <==> snapshotIndex <= |log| && snapshotTerm == TermAt(log, snapshotIndex)
      ensures Abs() == Node(term, vote, log, Follower, 1, {}, map[], snapshotIndex, Max(snapshotIndex, |log|),
                            covered + since, rash)
      ensures start == Machine(image, map[]) && since == Between(log, snapshotIndex, |log|)
    {
      this.id, this.size, this.maxBatch := id, size, maxBatch;
      currentTerm, votedFor, this.base, entries, history := term, vote, base, held, log;
      this.snapshotIndex, this.snapshotTerm := snapshotIndex, snapshotTerm;
      role, roleEpoch, votes, leaderships := Follower, 1, 0, map[];
      commitIndex, lastApplied, fed, sessions := snapshotIndex, snapshotIndex, image, map[];
      counted, applied, this.rash := {}, covered, rash;
      start, this.covered, since := Machine(image, map[]), covered, [];
      ReplayNone(Machine(image, map[]));
      new;
      ReplayLog();
    }

    /** The start-up loop, from wherever the snapshot left off. */
    method ReplayLog()
      requires LogOk() && MachineOk() && since == []
      modifies this`lastApplied, this`fed, this`sessions, this`applied, this`since
      ensures MachineOk() && lastApplied == Max(old(lastApplied), |history|)
      ensures since == Between(history, old(lastApplied), |history|)
    {
      ReadFacts(0);
      ApplyUpTo(LastIndex());
    }

    // ----- the log library -----

    function LastIndex(): nat
      reads this`base, this`entries
    {
      if entries == [] then 0 else base + |entries|
    }

    function Read(index: nat): Option<LogEntry>
      reads this`base, this`entries
    {
      if base < index <= base + |entries| then Some(entries[index - base - 1]) else None
    }

    /** An entry that can be read is the one the full log has there, and only compacted ones cannot be. */
    lemma ReadFacts(index: nat)
      requires LogOk()
      ensures LastIndex() == |history|
      ensures if base < index <= |history| then Read(index) == Some(history[index - 1]) else Read(index) == None
    {
    }

    function LastIndexAndTerm(): (nat, nat)
      reads this`base, this`entries, this`snapshotIndex, this`snapshotTerm
    {
      if LastIndex() > 0 then (LastIndex(), entries[|entries| - 1].term) else (snapshotIndex, snapshotTerm)
    }

    // ----- role changes -----

    method BecomeFollower(term: nat)
      requires VotesOk()
      modifies this`role, this`roleEpoch, this`currentTerm, this`votedFor, this`votes, this`counted
      ensures VotesOk()
      ensures Abs() == Nodes.BecomeFollower(old(Abs()), term)
      ensures role == Follower && roleEpoch == old(roleEpoch) + 1 && currentTerm == Max(old(currentTerm), term)
      ensures votedFor == if term > old(currentTerm) then None else old(votedFor)
    {
      roleEpoch := roleEpoch + 1;
      role := Follower;
      if term > currentTerm {
        currentTerm, votedFor := term, None;
        votes, counted := 0, {};
      }
    }

    method BecomeCandidate()
      modifies this`role, this`roleEpoch
      ensures Abs() == Nodes.BecomeCandidate(old(Abs()))
      ensures role == Candidate && roleEpoch == old(roleEpoch) + 1
    {
      roleEpoch := roleEpoch + 1;
      role := Candidate;
    }

    /** Entering leadership: set up the maps peer by peer, then write the no-op. */
    method EnterLeadership()
      requires LogOk() && id < size
      modifies this`role, this`roleEpoch, this`entries, this`history, this`leaderships
      ensures LogOk() && history == old(history) + [NoOp(currentTerm)]
      ensures Abs() == BecomeLeader(id, size, old(Abs())) && HasBook(roleEpoch)
      ensures role == Leader && roleEpoch == old(roleEpoch) + 1 && leaderships[roleEpoch].term == currentTerm
      ensures leaderships == old(leaderships)[roleEpoch := leaderships[roleEpoch]]
      ensures forall p | 0 <= p < size :: var o := leaderships[roleEpoch];
        && o.next[p] == (if p == id then |history| + 1 else |old(history)| + 1)
        && o.matched[p] == (if p == id then |history| else 0)
    {
      roleEpoch := roleEpoch + 1;
      role := Leader;
      WriteNoOp();
    }

    method WriteNoOp()
      requires LogOk() && id < size
      modifies this`entries, this`history, this`leaderships
      ensures LogOk() && history == old(history) + [NoOp(currentTerm)]
      ensures var n := |history|;
        leaderships == old(leaderships)[roleEpoch := LeaderObject(currentTerm,
                                                       seq(size, p => if p == id then n + 1 else n),
                                                       seq(size, p => if p == id then n else 0))]
    {
      ReadFacts(0);
      var next, matched := InitialBook(LastIndex());
      entries, history := entries + [NoOp(currentTerm)], history + [NoOp(currentTerm)];
      ReadFacts(0);
      next, matched := next[id := LastIndex() + 1], matched[id := LastIndex()];
      ghost var n := |history|;
      assert next == seq(size, p => if p == id then n + 1 else n);
      assert matched == seq(size, p => if p == id then n else 0);
      leaderships := leaderships[roleEpoch := LeaderObject(currentTerm, next, matched)];
    }

    method InitialBook(last: nat) returns (next: seq<nat>, matched: seq<nat>)
      ensures |next| == |matched| == size
      ensures forall q | 0 <= q < size :: next[q] == last + 1 && matched[q] == if q == id then last else 0
    {
      next, matched := [], [];
      var p := 0;
      while p < size
        invariant p <= size && |next| == |matched| == p
        invariant forall q | 0 <= q < p :: next[q] == last + 1 && matched[q] == if q == id then last else 0
      {
        next := next + [last + 1];
        matched := matched + [if p == id then last else 0];
        p := p + 1;
      }
    }

    // ----- votes -----

    /** With no entries held there is no snapshot either, and nothing stands in for the last entry. */
    ghost predicate BoundaryOk()
      reads this`entries, this`snapshotIndex, this`snapshotTerm
    {
      entries == [] ==> snapshotIndex == 0 == snapshotTerm
    }

    method HandleRequestVote(b: Ballot) returns (term: nat, granted: bool)
      requires LogOk() && VotesOk() && BoundaryOk()
      modifies this`role, this`roleEpoch, this`currentTerm, this`votedFor, this`votes, this`counted
      ensures VotesOk() && term == currentTerm
      ensures (Abs(), granted) == Nodes.HandleRequestVote(old(Abs()), b)
      ensures granted <==>
        && b.term >= old(currentTerm)
        && (b.lastTerm > TermAt(history, |history|) ||
            (b.lastTerm == TermAt(history, |history|) && b.lastIndex >= |history|))
        && (b.term > old(currentTerm) ||
            (old(role).Follower? && (old(votedFor).None? || old(votedFor).value == b.candidate)))
      ensures currentTerm == Max(old(currentTerm), b.term)
      ensures votedFor == if granted then Some(b.candidate)
                          else if b.term > old(currentTerm) then None else old(votedFor)
      ensures b.term <= old(currentTerm) ==> role == old(role) && roleEpoch == old(roleEpoch)
      ensures b.term > old(currentTerm) ==> role == Follower && roleEpoch == old(roleEpoch) + 1
    {
      VoteExact(Abs(), b);
      if b.term < currentTerm || (b.term == currentTerm && !role.Follower?) {
        return currentTerm, false;
      }
      if b.term > currentTerm {
        BecomeFollower(b.term);
      }
      granted := VoteAsFollower(b);
      term := currentTerm;
    }

    method VoteAsFollower(b: Ballot) returns (granted: bool)
      requires LogOk() && BoundaryOk()
      modifies this`votedFor
      ensures (Abs(), granted) == Nodes.VoteAsFollower(old(Abs()), b)
    {
      if votedFor.Some? && votedFor.value != b.candidate {
        return false;
      }
      granted := IsLogEqualOrMoreRecent(b.lastIndex, b.lastTerm);
      if granted {
        votedFor := Some(b.candidate);
      }
    }

    method IsLogEqualOrMoreRecent(index: nat, term: nat) returns (yes: bool)
      requires LogOk() && BoundaryOk()
      ensures yes == UpToDate(history, index, term)
    {
      ReadFacts(0);
      var (myIndex, myTerm) := LastIndexAndTerm();
      yes := term > myTerm || (term == myTerm && index >= myIndex);
    }

    /** Open a term: two separate writes, the term first and then the vote for itself. */
    method StartElection() returns (won: bool)
      requires LogOk() && id < size
      modifies this`currentTerm, this`votedFor, this`votes, this`counted,
               this`role, this`roleEpoch, this`entries, this`history, this`leaderships, this`commitIndex
      ensures LogOk() && VotesOk() && won == (1 >= Majority(size))
      ensures var v := OpenTerm(id, old(Abs()));
        Abs() == if won then Won(v) else v
    {
      VoteForSelf();
      won := votes >= Majority(size);
      if won {
        TakeOver();
      }
    }

    method VoteForSelf()
      modifies this`currentTerm, this`votedFor, this`votes, this`counted
      ensures VotesOk() && votes == 1 && Abs() == OpenTerm(id, old(Abs()))
      ensures currentTerm == old(currentTerm) + 1 && votedFor == Some(id) && counted == {id}
    {
      currentTerm := currentTerm + 1;
      votedFor := Some(id);
      votes, counted := 1, {id};
    }

    /** From v the node entered leadership and tried to commit at once. */
    ghost function Won(v: Node): Node
      reads this`base
    {
      var w := BecomeLeader(id, size, v);
      TryAdvanceHeld(w, w.roleId, base)
    }

    method TakeOver()
      requires LogOk() && id < size
      modifies this`role, this`roleEpoch, this`entries, this`history, this`leaderships, this`commitIndex
      ensures LogOk() && |history| == |old(history)| + 1 && Abs() == Won(old(Abs()))
    {
      EnterLeadership();
      TryToAdvanceCommitIndex(roleEpoch);
    }

    /** The reply of `voter` to the request `b`; each reply is handled once. */
    method HandleVoteReply(b: Ballot, voter: nat, term: nat, granted: bool)
      requires LogOk() && VotesOk() && id < size && voter !in counted
      modifies this`currentTerm, this`votedFor, this`votes, this`counted,
               this`role, this`roleEpoch, this`entries, this`history, this`leaderships, this`commitIndex
      ensures LogOk() && VotesOk()
      ensures term > old(currentTerm) ==> Abs() == Nodes.BecomeFollower(old(Abs()), term)
      ensures term <= old(currentTerm) && !(granted && term == b.term == old(currentTerm) && old(role).Candidate?) ==>
        Abs() == old(Abs())
      ensures granted && term == b.term == old(currentTerm) && old(role).Candidate? ==>
        var v := old(Abs()).(counted := old(counted) + {voter});
        Abs() == if |v.counted| < Majority(size) then v else Won(v)
    {
      if term > currentTerm {
        BecomeFollower(term);
      } else if granted && term == b.term && role.Candidate? && currentTerm == b.term {
        votes, counted := votes + 1, counted + {voter};
        if votes >= Majority(size) {
          TakeOver();
        }
      }
    }

    // ----- a follower receives entries -----

    /** Does the log hold the entry before the ones sent?  If not, where does the conflict start? */
    method CheckLogConsistency(index: nat, term: nat) returns (ok: bool, conflictIndex: nat, conflictTerm: nat)
      requires Valid()
      ensures index == 0 ==> ok
      ensures index >= snapshotIndex ==> (ok <==> Consistent(history, index, term))
      ensures 0 < index < snapshotIndex ==> !ok
      ensures !ok && index <= |history| ==> Reported(history, snapshotIndex, index, conflictIndex, conflictTerm)
      ensures index > |history| ==> !ok && conflictIndex == index && conflictTerm == 0
    {
      if index == 0 {
        return true, 0, 0;
      }
      if index == snapshotIndex {
        return term == snapshotTerm, snapshotIndex + 1, 0;
      }
      if index < snapshotIndex {
        return false, snapshotIndex + 1, 0;
      }
      ReadFacts(index);
      var entry := Read(index);
      if entry.None? {
        return false, index, 0;
      }
      if entry.value.term == term {
        return true, 0, 0;
      }
      ok, conflictTerm, conflictIndex := false, entry.value.term, index;
      while conflictIndex > 1 && conflictIndex > snapshotIndex + 1
        invariant snapshotIndex < conflictIndex <= index && history[conflictIndex - 1].term == conflictTerm
        invariant RunStart(history, index, snapshotIndex) == RunStart(history, conflictIndex, snapshotIndex)
        decreases conflictIndex
      {
        ReadFacts(conflictIndex - 1);
        var before := Read(conflictIndex - 1);
        if before.None? || before.value.term != conflictTerm {
          return;
        }
        conflictIndex := conflictIndex - 1;
      }
    }

    /** Keep the first `keep` entries and write the others after them. */
    method WriteEntries(ghost keep: nat, more: Log)
      requires base <= keep <= |history| && entries == history[base..keep]
      modifies this`entries, this`history
      ensures history == old(history)[..keep] + more && entries == history[base..]
    {
      history := history[..keep];
      var i := 0;
      while i < |more|
        invariant i <= |more| && history == old(history)[..keep] + more[..i] && entries == history[base..]
      {
        entries, history := entries + [more[i]], history + [more[i]];
        i := i + 1;
      }
    }

    method TruncateAndWrite(keep: nat, more: Log)
      requires LogOk() && base <= keep <= |history|
      modifies this`entries, this`history
      ensures history == old(history)[..keep] + more && entries == history[base..]
    {
      assert history[base..][..keep - base] == history[base..keep];
      entries := entries[..keep - base];
      WriteEntries(keep, more);
    }

    /** Truncate-and-append.  Below the dropped part of the log nothing can be read, and the entries
        end up behind everything else. */
    method AppendEntries(prevIndex: nat, more: Log)
      requires LogOk() && prevIndex <= |history|
      modifies this`entries, this`history
      ensures LogOk()
      ensures history == AppendHeld(old(history), base, prevIndex, more)
    {
      var i := 0;
      while i < |more|
        invariant history == old(history) && entries == old(entries)
        invariant i <= |more| && prevIndex + i <= |history| && (i > 0 ==> prevIndex >= base)
        invariant prevIndex >= base ==> Append(history, prevIndex, more) == Append(history, prevIndex + i, more[i..])
      {
        var index := prevIndex + 1 + i;
        ReadFacts(index);
        var entry := Read(index);
        AppendUnfold(history, index - 1, more[i..]);
        assert i == 0 ==> more[i..] == more;
        assert history[..|history|] == history;
        if entry.None? {
          WriteEntries(|history|, more[i..]);
          return;
        }
        if entry.value.term != more[i].term {
          TruncateAndWrite(index - 1, more[i..]);
          return;
        }
        assert more[i..][1..] == more[i + 1..];
        i := i + 1;
      }
    }

    /** Capped by the node's own last index, and never backwards. */
    method SetCommitIndex(index: nat)
      requires LogOk()
      modifies this`commitIndex
      ensures Abs() == RaiseCommit(old(Abs()), index)
      ensures commitIndex == if history == [] then old(commitIndex) else Max(old(commitIndex), Min(index, |history|))
    {
      ReadFacts(0);
      if LastIndex() == 0 {
        return;
      }
      var capped := if index > LastIndex() then LastIndex() else index;
      if capped > commitIndex {
        commitIndex := capped;
      }
    }

    /** One entry goes through the session table to the state machine. */
    method FeedEntry(e: LogEntry)
      modifies this`fed, this`sessions
      ensures Machine(fed, sessions) == Feed(Machine(old(fed), old(sessions)), e)
    {
      if e.data != [] {
        if e.clientId != [] {
          if !IsDuplicate(sessions, e.clientId, e.sequenceNumber) {
            fed := fed + [e.data];
            sessions := Record(sessions, e.clientId, e.sequenceNumber, fed);
          }
        } else {
          fed := fed + [e.data];
        }
      }
    }

    /** Feed the state machine everything committed and not yet applied. */
    method ApplyToStateMachine()
      requires LogOk() && MachineOk()
      modifies this`lastApplied, this`fed, this`sessions, this`applied, this`since
      ensures MachineOk() && Abs() == ApplyCommitted(old(Abs()))
      ensures lastApplied == Max(old(lastApplied), Min(commitIndex, |history|))
      ensures since == old(since) + Between(history, old(lastApplied), lastApplied)
    {
      ApplyShape(Abs());
      ghost var more := Between(history, lastApplied, Min(commitIndex, |history|));
      AppliedInParts(covered, since, more);
      ApplyUpTo(commitIndex);
    }

    /** The apply loop: each entry up to an index, in order, until one cannot be read. */
    method ApplyUpTo(index: nat)
      requires LogOk() && MachineOk()
      modifies this`lastApplied, this`fed, this`sessions, this`applied, this`since
      ensures MachineOk() && lastApplied == Max(old(lastApplied), Min(index, |history|))
      ensures since == old(since) + Between(history, old(lastApplied), Min(index, |history|))
    {
      ghost var from, before := lastApplied, since;
      ghost var limit := Min(index, |history|);
      var more := true;
      while lastApplied < index && more
        invariant MachineOk() && AppliedSince(history, from, before, limit, lastApplied, since)
        invariant !more ==> lastApplied >= |history|
        decreases index - lastApplied, more
      {
        more := ApplyOneMore(from, before, limit);
      }
    }

    method ApplyOneMore(ghost from: nat, ghost before: Log, ghost limit: nat) returns (more: bool)
      requires LogOk() && MachineOk() && AppliedSince(history, from, before, limit, lastApplied, since)
      requires lastApplied < |history| ==> lastApplied < limit
      modifies this`lastApplied, this`fed, this`sessions, this`applied, this`since
      ensures MachineOk() && AppliedSince(history, from, before, limit, lastApplied, since)
      ensures if more then lastApplied == old(lastApplied) + 1 else lastApplied == old(lastApplied) >= |history|
    {
      ghost var was := since;
      more := ApplyNext();
      if more {
        AppliedOneMore(history, from, before, limit, lastApplied - 1, was);
      }
    }

    /** Apply the entry after the last applied one, if it can be read. */
    method ApplyNext() returns (found: bool)
      requires LogOk() && MachineOk()
      modifies this`lastApplied, this`fed, this`sessions, this`applied, this`since
      ensures MachineOk() && found == (old(lastApplied) < |history|)
      ensures lastApplied == old(lastApplied) + (if found then 1 else 0)
      ensures since == if found then old(since) + [history[old(lastApplied)]] else old(since)
    {
      ReadFacts(lastApplied + 1);
      var entry := Read(lastApplied + 1);
      found := entry.Some?;
      if found {
        ApplyEntry(entry.value);
      }
    }

    method ApplyEntry(e: LogEntry)
      requires MachineOk()
      modifies this`lastApplied, this`fed, this`sessions, this`applied, this`since
      ensures MachineOk() && lastApplied == old(lastApplied) + 1 && since == old(since) + [e]
    {
      FeedEntry(e);
      ReplayOne(start, since, e);
      AppliedInParts(covered, since, [e]);
      applied, since := applied + [e], since + [e];
      lastApplied := lastApplied + 1;
    }

    // ----- a leader object -----

    ghost predicate HasBook(reign: nat)
      reads this
    {
      reign in leaderships && |leaderships[reign].matched| == |leaderships[reign].next| == size
    }

    /** Collect the match indexes, sort them, look at the middle one: the commit index rises to the greatest index
        that a majority has reached, if the entry there is still held and the rule allows it, and otherwise stays. */
    method TryToAdvanceCommitIndex(reign: nat)
      requires LogOk() && HasBook(reign)
      modifies this`commitIndex
      ensures Abs() == TryAdvanceHeld(old(Abs()), reign, base)
      ensures Advanced(history, currentTerm, leaderships[reign].matched, base, old(commitIndex), commitIndex)
      ensures InOrder(history, currentTerm, leaderships[reign].matched) ==>
        Greatest(history, currentTerm, leaderships[reign].matched, base, old(commitIndex), commitIndex)
    {
      AdvanceHeldFacts(Abs(), reign, base);
      LookAtMiddle(reign);
    }

    method LookAtMiddle(reign: nat)
      requires LogOk() && HasBook(reign)
      modifies this`commitIndex
      ensures Abs() == TryAdvanceHeld(old(Abs()), reign, base)
    {
      var matches := CollectMatches(reign);
      if matches == [] {
        return;
      }
      Commitment.OrderedFacts(matches, 0);
      var candidate := Commitment.Ordered(matches)[|matches| - |matches| / 2 - 1];
      if candidate == 0 {
        return;
      }
      ReadFacts(candidate);
      var entry := Read(candidate);
      if entry.Some? && entry.value.term == currentTerm && candidate > commitIndex {
        SetCommitIndex(candidate);
      }
    }

    method CollectMatches(reign: nat) returns (matches: seq<nat>)
      requires HasBook(reign)
      ensures matches == leaderships[reign].matched
    {
      matches := [];
      var p := 0;
      while p < size
        invariant p <= size && matches == leaderships[reign].matched[..p]
      {
        matches := matches + [leaderships[reign].matched[p]];
        p := p + 1;
      }
    }

    /** A client's command is written with the current term, and the leader counts itself.  The log holds what the
        encoding of the entry reads as. */
    method HandlePropose(data: seq<byte>, clientId: seq<byte>, sequenceNumber: nat) returns (index: nat)
      requires LogOk() && HasBook(roleEpoch) && id < size
      modifies this`entries, this`history, this`leaderships
      ensures LogOk() && index == |history| == |old(history)| + 1
      ensures history == old(history) +
        [LogEntryCodec.Stored(LogEntry(currentTerm, clientId, sequenceNumber, data))]
      ensures var o := old(leaderships[roleEpoch]);
        leaderships == old(leaderships)[roleEpoch := o.(matched := o.matched[id := Max(o.matched[id], index)],
                                                        next := o.next[id := Max(o.next[id], index + 1)])]
      ensures Abs() == Propose(id, old(Abs()),
                               LogEntryCodec.Stored(LogEntry(currentTerm, clientId, sequenceNumber, data)))
    {
      var entry := LogEntryCodec.Stored(LogEntry(currentTerm, clientId, sequenceNumber, data));
      entries, history := entries + [entry], history + [entry];
      ReadFacts(0);
      index := LastIndex();
      RaiseOwn(index);
    }

    method RaiseOwn(index: nat)
      requires HasBook(roleEpoch) && id < size
      modifies this`leaderships
      ensures var o := old(leaderships[roleEpoch]);
        leaderships == old(leaderships)[roleEpoch := o.(matched := o.matched[id := Max(o.matched[id], index)],
                                                        next := o.next[id := Max(o.next[id], index + 1)])]
    {
      var o := leaderships[roleEpoch];
      SameUpdate(o.matched, id);
      SameUpdate(o.next, id);
      if o.matched[id] < index {
        o := o.(matched := o.matched[id := index]);
      }
      if o.next[id] < index + 1 {
        o := o.(next := o.next[id := index + 1]);
      }
      leaderships := leaderships[roleEpoch := o];
    }

    /** The request for a peer, or nothing when the peer needs a snapshot instead. */
    method BuildRequest(reign: nat, peer: nat) returns (m: Option<AppendMsg>)
      requires Valid() && HasBook(reign) && peer < size && maxBatch >= 1
      ensures var next := if leaderships[reign].next[peer] == 0 then |history| + 1 else leaderships[reign].next[peer];
        m == if 0 < snapshotIndex && next <= snapshotIndex then None
             else Some(BuildAppend(id, Abs(), reign, peer, maxBatch))
      ensures var o := leaderships[reign]; var next := if o.next[peer] == 0 then |history| + 1 else o.next[peer];
        m.Some? ==>
          && m.value.from == id && m.value.to == peer && m.value.reign == reign && m.value.term == o.term
          && m.value.prevIndex == next - 1 && m.value.leaderCommit == commitIndex
          && m.value.prevTerm == (if next - 1 <= |history| then TermAt(history, next - 1) else 0)
          && m.value.entries ==
             (if next <= |history| then history[next - 1..Min(|history|, next - 1 + maxBatch)] else [])
    {
      ReadFacts(0);
      var last := LastIndex();
      var next := leaderships[reign].next[peer];
      if next == 0 {
        next := last + 1;
      }
      if snapshotIndex > 0 && next <= snapshotIndex {
        return None;
      }
      var prev, prevTerm, batch := RequestFrom(next);
      m := Some(AppendMsg(id, peer, reign, leaderships[reign].term, prev, prevTerm, batch, commitIndex));
    }

    method RequestFrom(next: nat) returns (prev: nat, prevTerm: nat, batch: Log)
      requires Valid() && maxBatch >= 1 && next > snapshotIndex
      ensures (prev, prevTerm, batch) == RequestAt(history, next, maxBatch)
    {
      prev := next - 1;
      prevTerm := TermBefore(prev);
      batch := NextBatch(next);
    }

    method TermBefore(prev: nat) returns (term: nat)
      requires Valid() && prev >= snapshotIndex
      ensures term == if prev <= |history| then TermAt(history, prev) else 0
    {
      term := 0;
      if prev > 0 {
        if prev == snapshotIndex {
          term := snapshotTerm;
        } else {
          ReadFacts(prev);
          var entry := Read(prev);
          if entry.Some? {
            term := entry.value.term;
          }
        }
      }
    }

    method NextBatch(next: nat) returns (batch: Log)
      requires LogOk() && base < next && maxBatch >= 1
      ensures batch == if next <= |history| then history[next - 1..Min(|history|, next - 1 + maxBatch)] else []
    {
      batch := [];
      ReadFacts(0);
      var last := LastIndex();
      if next <= last {
        var to := if last - next + 1 > maxBatch then next + maxBatch - 1 else last;
        batch := ReadBatch(next, to);
      }
    }

    method ReadBatch(from: nat, to: nat) returns (batch: Log)
      requires LogOk() && base < from <= to <= |history|
      ensures batch == history[from - 1..to]
    {
      batch := [];
      var i := from;
      while i <= to
        invariant from <= i <= to + 1 && batch == history[from - 1..i - 1]
      {
        ReadFacts(i);
        var entry := Read(i);
        if entry.None? {
          break;
        }
        batch := batch + [entry.value];
        i := i + 1;
      }
    }

    /** The last index of a term the log still holds; 0 if there is none, or the walk meets a smaller term first. */
    method LastIndexOf(term: nat) returns (index: nat)
      requires LogOk()
      ensures index == var last := LastIndexOfTerm(history, term); if last > base then last else 0
    {
      HeldIndexOfTerm(history, base, term);
      if term == 0 {
        return 0;
      }
      var i := |entries|;
      assert entries[..i] == entries;
      while i > 0
        invariant i <= |entries| && LastIndexOfTerm(entries, term) == LastIndexOfTerm(entries[..i], term)
      {
        if entries[i - 1].term == term {
          return base + i;
        }
        if entries[i - 1].term < term {
          return 0;
        }
        assert entries[..i][..i - 1] == entries[..i - 1];
        i := i - 1;
      }
      return 0;
    }

    /** The reply to the request `m`.  Some leader role must be in place; the code does not ask whether it
        is the one that sent the request. */
    method HandleAppendReply(m: AppendMsg, term: nat, success: bool, conflictIndex: nat, conflictTerm: nat)
      requires LogOk() && VotesOk() && HasBook(m.reign) && m.to < size
      modifies this`role, this`roleEpoch, this`currentTerm, this`votedFor, this`votes, this`counted,
               this`leaderships, this`commitIndex
      ensures VotesOk()
      ensures term > old(currentTerm) ==> Abs() == Nodes.BecomeFollower(old(Abs()), term)
      ensures term <= old(currentTerm) && !(old(role).Leader? && term == m.term) ==> Abs() == old(Abs())
      ensures term <= old(currentTerm) && old(role).Leader? && term == m.term && success ==>
        Abs() == TryAdvanceHeld(NoteSuccess(old(Abs()), m.reign, m.to, m.LastIndex()), m.reign, base)
      ensures term <= old(currentTerm) && old(role).Leader? && term == m.term && !success ==>
        Abs() == NoteRejectionHeld(old(Abs()), base, m.reign, m.to, conflictIndex, conflictTerm)
      ensures term <= old(currentTerm) && old(role).Leader? && term == m.term ==>
        var o := old(leaderships[m.reign]);
        leaderships == old(leaderships)[m.reign :=
          if success then o.(matched := o.matched[m.to := Max(o.matched[m.to], m.LastIndex())],
                             next := o.next[m.to := Max(o.next[m.to], m.LastIndex() + 1)])
          else o.(next := o.next[m.to := leaderships[m.reign].next[m.to]])]
      ensures term <= old(currentTerm) && old(role).Leader? && term == m.term && !success ==>
        commitIndex == old(commitIndex) &&
        WentBack(history, base, old(leaderships[m.reign].next[m.to]), conflictIndex, conflictTerm,
                 leaderships[m.reign].next[m.to])
    {
      if term > currentTerm {
        BecomeFollower(term);
      } else if role.Leader? && term == m.term {
        if success {
          NoteAck(m.reign, m.to, m.prevIndex + |m.entries|);
          TryToAdvanceCommitIndex(m.reign);
        } else {
          GoBack(m.reign, m.to, conflictIndex, conflictTerm);
        }
      }
    }

    method NoteAck(reign: nat, peer: nat, index: nat)
      requires HasBook(reign) && peer < size
      modifies this`leaderships
      ensures HasBook(reign) && Abs() == NoteSuccess(old(Abs()), reign, peer, index)
      ensures var o := old(leaderships[reign]);
        leaderships == old(leaderships)[reign := o.(matched := o.matched[peer := Max(o.matched[peer], index)],
                                                    next := o.next[peer := Max(o.next[peer], index + 1)])]
    {
      var o := leaderships[reign];
      SameUpdate(o.matched, peer);
      SameUpdate(o.next, peer);
      if o.matched[peer] < index {
        o := o.(matched := o.matched[peer := index]);
      }
      if o.next[peer] < index + 1 {
        o := o.(next := o.next[peer := index + 1]);
      }
      leaderships := leaderships[reign := o];
    }

    method GoBack(reign: nat, peer: nat, conflictIndex: nat, conflictTerm: nat)
      requires LogOk() && HasBook(reign) && peer < size
      modifies this`leaderships
      ensures Abs() == NoteRejectionHeld(old(Abs()), base, reign, peer, conflictIndex, conflictTerm)
      ensures HasBook(reign) && WentBack(history, base, old(leaderships[reign].next[peer]), conflictIndex, conflictTerm,
                                         leaderships[reign].next[peer])
      ensures var o := old(leaderships[reign]);
        leaderships == old(leaderships)[reign := o.(next := o.next[peer := leaderships[reign].next[peer]])]
    {
      BackOffHeldWent(history, base, leaderships[reign].next[peer], conflictIndex, conflictTerm);
      var o := leaderships[reign];
      var next := o.next[peer];
      if next > 1 {
        var last := LastIndexOf(conflictTerm);
        next := if conflictTerm != 0 && last > 0 then last + 1 else conflictIndex;
        if next < 1 {
          next := 1;
        }
      }
      leaderships := leaderships[reign := o.(next := o.next[peer := next])];
    }

    // ----- the whole AppendEntries handler -----

    /** A request of an older term, or the leader's own, changes nothing; any other makes the node a follower in its
        term.  On a snapshot boundary or above it a compacted node answers as a full one would
        (`Compaction.HandleHeldExact`).  A request at 0 is always accepted, and its entries end up behind everything
        else if the start is gone. */
    method HandleAppendEntries(m: AppendMsg) returns (term: nat, ok: bool, conflictIndex: nat, conflictTerm: nat)
      requires Valid()
      modifies this`role, this`roleEpoch, this`currentTerm, this`votedFor, this`votes, this`counted,
               this`entries, this`history, this`commitIndex, this`lastApplied, this`fed, this`sessions,
               this`applied, this`since
      ensures LogValid() && term == currentTerm && (m.prevIndex >= snapshotIndex ==> Valid())
      ensures (Abs(), ok) == HandleHeld(id, old(Abs()), snapshotIndex, base, m)
      ensures if m.term < old(currentTerm) || (old(role).Leader? && m.term == old(currentTerm) && m.from == id)
              then Abs() == old(Abs()) && !ok
              else
                && role.Follower? && currentTerm == m.term
                && (ok <==> m.prevIndex == 0 ||
                            (snapshotIndex <= m.prevIndex <= |old(history)| &&
                             old(history)[m.prevIndex - 1].term == m.prevTerm))
                && (!ok ==> Reported(old(history), snapshotIndex, m.prevIndex, conflictIndex, conflictTerm))
      ensures !ok ==> history == old(history) && commitIndex == old(commitIndex) && lastApplied == old(lastApplied)
      ensures ok ==> m.prevIndex <= |old(history)|
      ensures ok && m.prevIndex < base ==> history == old(history) + m.entries
      ensures ok && m.prevIndex >= base ==> exists k :: Replaces(old(history), m.prevIndex, m.entries, k, history)
      ensures ok ==>
        && commitIndex == (if history == [] then old(commitIndex)
                           else Max(old(commitIndex), Min(m.leaderCommit, |history|)))
        && lastApplied == Max(old(lastApplied), Min(commitIndex, |history|))
    {
      ghost var v := Abs();
      HandleHeldJoins(id, v, snapshotIndex, base, m);
      term, ok, conflictIndex, conflictTerm := AnswerAppend(m);
      if ok {
        HandleHeldWrites(id, v, snapshotIndex, base, m);
        HandleHeldCommits(id, v, snapshotIndex, base, m);
      } else {
        HandleHeldRefuses(id, v, snapshotIndex, base, m);
      }
    }

    method AnswerAppend(m: AppendMsg) returns (term: nat, ok: bool, conflictIndex: nat, conflictTerm: nat)
      requires Valid()
      modifies this`role, this`roleEpoch, this`currentTerm, this`votedFor, this`votes, this`counted,
               this`entries, this`history, this`commitIndex, this`lastApplied, this`fed, this`sessions,
               this`applied, this`since
      ensures LogValid() && term == currentTerm && (m.prevIndex >= snapshotIndex ==> Valid())
      ensures (Abs(), ok) == HandleHeld(id, old(Abs()), snapshotIndex, base, m)
      ensures !ok && !(m.term < old(currentTerm) ||
                       (old(role).Leader? && m.term == old(currentTerm) && m.from == id)) ==>
        Reported(old(history), snapshotIndex, m.prevIndex, conflictIndex, conflictTerm)
    {
      if m.term < currentTerm || (role.Leader? && m.term == currentTerm && m.from == id) {
        return currentTerm, false, 0, 0;
      }
      ok, conflictIndex, conflictTerm := JoinAndTake(m);
      term := currentTerm;
    }

    method JoinAndTake(m: AppendMsg) returns (ok: bool, conflictIndex: nat, conflictTerm: nat)
      requires Valid() && m.term >= currentTerm
      modifies this`role, this`roleEpoch, this`currentTerm, this`votedFor, this`votes, this`counted,
               this`entries, this`history, this`commitIndex, this`lastApplied, this`fed, this`sessions,
               this`applied, this`since
      ensures LogValid() && (m.prevIndex >= snapshotIndex ==> Valid())
      ensures (Abs(), ok) == TakeHeld(Receive(old(Abs()), m), snapshotIndex, base, m)
      ensures !ok ==> Reported(old(history), snapshotIndex, m.prevIndex, conflictIndex, conflictTerm)
    {
      Join(m);
      ok, conflictIndex, conflictTerm := TakeEntries(m);
    }

    method Join(m: AppendMsg)
      requires VotesOk() && m.term >= currentTerm
      modifies this`role, this`roleEpoch, this`currentTerm, this`votedFor, this`votes, this`counted
      ensures VotesOk() && Abs() == Receive(old(Abs()), m)
    {
      if !role.Follower? || m.term > currentTerm {
        BecomeFollower(m.term);
      }
    }

    /** The follower's part: check, append, commit, apply. */
    method TakeEntries(m: AppendMsg) returns (ok: bool, conflictIndex: nat, conflictTerm: nat)
      requires Valid()
      modifies this`entries, this`history, this`commitIndex, this`lastApplied, this`fed, this`sessions,
               this`applied, this`since
      ensures LogOk() && MachineOk() && (m.prevIndex >= snapshotIndex ==> Valid())
      ensures (Abs(), ok) == TakeHeld(old(Abs()), snapshotIndex, base, m)
      ensures !ok ==> Reported(old(history), snapshotIndex, m.prevIndex, conflictIndex, conflictTerm)
    {
      ReadFacts(0);
      if m.prevIndex > LastIndex() {
        return false, LastIndex() + 1, 0;
      }
      ok, conflictIndex, conflictTerm := CheckLogConsistency(m.prevIndex, m.prevTerm);
      if ok {
        Accept(m);
      }
    }

    method Accept(m: AppendMsg)
      requires Valid() && m.prevIndex <= |history|
      modifies this`entries, this`history, this`commitIndex, this`lastApplied, this`fed, this`sessions,
               this`applied, this`since
      ensures LogOk() && MachineOk() && (m.prevIndex >= snapshotIndex ==> Valid())
      ensures Abs() == Accepted(old(Abs()), m, AppendHeld(old(history), base, m.prevIndex, m.entries))
    {
      Write(m);
      CommitAndApply(m.leaderCommit);
    }

    /** What is sent from the snapshot boundary on leaves what the boundary stands on as it is. */
    method Write(m: AppendMsg)
      requires LogOk() && m.prevIndex <= |history|
      modifies this`entries, this`history
      ensures LogOk() && history == AppendHeld(old(history), base, m.prevIndex, m.entries)
      ensures base <= snapshotIndex <= m.prevIndex ==>
        snapshotIndex <= |history| && TermAt(history, snapshotIndex) == TermAt(old(history), snapshotIndex)
    {
      if snapshotIndex <= m.prevIndex {
        AppendTermAt(history, m.prevIndex, m.entries, snapshotIndex);
      }
      AppendEntries(m.prevIndex, m.entries);
    }

    method CommitAndApply(leaderCommit: nat)
      requires LogOk() && MachineOk()
      modifies this`commitIndex, this`lastApplied, this`fed, this`sessions, this`applied, this`since
      ensures MachineOk() && lastApplied >= old(lastApplied)
      ensures Abs() == ApplyCommitted(RaiseCommit(old(Abs()), leaderCommit))
    {
      SetCommitIndex(leaderCommit);
      ApplyToStateMachine();
    }

    // ----- snapshots -----

    /** First phase of taking a snapshot: what it will cover, if it is worth taking. */
    method BeginSnapshot(threshold: nat) returns (snapshot: Option<(nat, nat)>)
      requires Valid()
      ensures snapshot.Some? ==>
        && snapshotIndex < snapshot.value.0 == lastApplied <= |history|
        && snapshot.value.1 == TermAt(history, lastApplied)
      ensures snapshot.None? <==>
        lastApplied - snapshotIndex < threshold || lastApplied == snapshotIndex || lastApplied > |history|
    {
      if lastApplied <= snapshotIndex || lastApplied - snapshotIndex < threshold {
        return None;
      }
      ReadFacts(lastApplied);
      var entry := Read(lastApplied);
      if entry.None? {
        return None;
      }
      return Some((lastApplied, entry.value.term));
    }

    /** Last phase, once the snapshot is on disk: drop the log it covers.  Read against the full log, nothing
        changes.  Between the phases a node that had applied uncommitted entries may have lost them; the
        snapshot then no longer fits the log, and that is the only way for it not to. */
    method FinishSnapshot(index: nat, term: nat)
      requires Valid() && index <= lastApplied
      modifies this`snapshotIndex, this`snapshotTerm, this`base, this`entries
      ensures LogValid() && Abs() == old(Abs()) && snapshotIndex == Max(old(snapshotIndex), index)
      ensures Valid() <==> index <= old(snapshotIndex) || (index <= |history| && term == TermAt(history, index))
      ensures base == if old(snapshotIndex) < index < |history| then index else old(base)
    {
      if index > snapshotIndex {
        snapshotIndex, snapshotTerm := index, term;
        ReadFacts(0);
        if LastIndex() > snapshotIndex {
          entries, base := entries[snapshotIndex - base..], snapshotIndex;
        }
      }
    }
  }
}
