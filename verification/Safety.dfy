/** The safety theorems of the Raft paper (section 5.4.3), for every run of the model. */
module Safety {
  import opened Types
  import opened Logs
  import opened Quorums
  import opened Nodes
  import opened Cluster
  import opened Invariants
  import opened Growth
  import opened Preservation
  import Commitment

  lemma {:induction false} RunInv(states: seq<State>, steps: seq<Step>, i: nat)
    requires Run(states, steps) && i < |states|
    ensures Inv(states[i])
  {
    if i == 0 {
      InitInv(states[0]);
    } else {
      RunInv(states, steps, i - 1);
      StepInv(states[i - 1], steps[i - 1]);
    }
  }

  lemma StepGrows(states: seq<State>, steps: seq<Step>, i: nat)
    requires Run(states, steps) && i < |steps|
    ensures Grows(states[i], states[i + 1])
  {
    RunInv(states, steps, i);
    StepInv(states[i], steps[i]);
  }

  ghost predicate Growing(states: seq<State>) {
    forall i | 0 <= i < |states| - 1 :: Grows(states[i], states[i + 1])
  }

  lemma {:induction false} GrowsAlong(states: seq<State>, i: nat, j: nat)
    requires Growing(states) && i <= j < |states|
    ensures Grows(states[i], states[j])
    decreases j
  {
    if i < j {
      GrowsAlong(states, i, j - 1);
      GrowsTransitive(states[i], states[j - 1], states[j]);
    }
  }

  lemma RunGrows(states: seq<State>, steps: seq<Step>, i: nat, j: nat)
    requires Run(states, steps) && i <= j < |states|
    ensures Grows(states[i], states[j])
  {
    forall k | 0 <= k < |states| - 1 ensures Grows(states[k], states[k + 1]) {
      StepGrows(states, steps, k);
    }
    GrowsAlong(states, i, j);
  }

  // ----- Election Safety -----

  /** At most one node is ever leader of a term, at any two moments of a run: with stale candidate
      objects, late votes, and crashes between persisting a term and its vote. */
  lemma ElectionSafety(states: seq<State>, steps: seq<Step>, i: nat, j: nat, a: nat, b: nat)
    requires Run(states, steps) && i < |states| && j < |states|
    requires states[i].Has(a) && states[j].Has(b)
    requires states[i].nodes[a].role.Leader? && states[j].nodes[b].role.Leader?
    requires states[i].nodes[a].currentTerm == states[j].nodes[b].currentTerm
    ensures a == b
  {
    if j < i {
      ElectionSafety(states, steps, j, i, b, a);
    } else {
      RunInv(states, steps, i);
      RunInv(states, steps, j);
      RunGrows(states, steps, i, j);
      assert RoleOk(states[i], a) && RoleOk(states[j], b);
    }
  }

  /** Leader Append-Only: between two moments at which a node leads one term its log only grows. */
  lemma LeaderAppendOnly(states: seq<State>, steps: seq<Step>, i: nat, j: nat, a: nat)
    requires Run(states, steps) && i <= j < |states| && states[i].Has(a) && states[j].Has(a)
    requires states[i].nodes[a].role.Leader? && states[j].nodes[a].role.Leader?
    requires states[i].nodes[a].currentTerm == states[j].nodes[a].currentTerm
    ensures states[i].nodes[a].log <= states[j].nodes[a].log
  {
    RunInv(states, steps, i);
    RunInv(states, steps, j);
    RunGrows(states, steps, i, j);
    LeaderHasLog(states[i], a);
    LeaderHasLog(states[j], a);
  }

  // ----- Log Matching -----

  /** Two logs of any nodes, at any two moments, that agree on the term at an index agree up to it. */
  lemma LogMatching(states: seq<State>, steps: seq<Step>, i: nat, j: nat, a: nat, b: nat)
    requires Run(states, steps) && i <= j < |states|
    requires states[i].Has(a) && states[j].Has(b)
    ensures Matching(states[i].nodes[a].log, states[j].nodes[b].log)
    ensures Sorted(states[i].nodes[a].log)
  {
    RunInv(states, steps, i);
    RunInv(states, steps, j);
    RunGrows(states, steps, i, j);
    var s, s' := states[i], states[j];
    assert LogOk(s.nodes[a].log, s.leaders) && LogOk(s'.nodes[b].log, s'.leaders);
    AnchoredGrows(s.nodes[a].log, s.leaders, s'.leaders);
    AnchoredMatch(s.nodes[a].log, s'.nodes[b].log, s'.leaders);
  }

  // ----- Leader Completeness -----

  /** Some elector of a later leader had acknowledged the chosen entry, and its vote remembers that. */
  lemma ElectorRemembers(s: State, term: nat, k: nat, later: nat)
    requires LeadersInv(s) && RemembersInv(s) && Chosen(s, term, k) && later in s.leaders && term < later
    ensures var l := s.leaders[later];
      AtLeast(l.ballot.lastIndex, l.ballot.lastTerm, term, k) || Overwritten(s.leaders, term, k, l.rank)
  {
    var won := s.leaders[later];
    var q :| AckedByAll(s, q, term, k);
    assert LeadershipOk(s, later);
    var p := QuorumsMeet(q, won.electors, |s.nodes|);
    assert Acked(s, p, term, k);
    var a :| a in s.acks && a.node == p && a.term == term && a.index >= k;
    assert VoteRemembers(s.leaders, Vote(p, won.ballot), a, k);
  }

  /** A log that starts with part of `source`, a log that holds the leader's first k entries and is long
      or new enough, holds them too. */
  lemma PartHolds(log: Log, source: Log, leader: Log, term: nat, k: nat, part: nat)
    requires 0 < part <= |log| && part <= |source| && log[..part] == source[..part] && Sorted(source)
    requires 1 <= k <= |leader| && leader[k - 1].term == term && Holds(source, leader, k)
    requires k <= part || source[part - 1].term > term
    ensures Holds(log, leader, k)
  {
    assert source[k - 1] == source[..k][k - 1] == leader[..k][k - 1] == leader[k - 1];
    assert part <= k ==> source[part - 1].term <= source[k - 1].term;
    assert log[..k] == log[..part][..k] == source[..part][..k] == source[..k];
  }

  lemma AnchoredPart(log: Log, k: nat, leaders: Leaders)
    requires 0 < k <= |log| && AnchoredAt(log, k - 1, leaders)
    ensures var source := leaders[log[k - 1].term].log;
      k <= |source| && log[..k] == source[..k] && source[k - 1].term == log[k - 1].term
  {
    var source := leaders[log[k - 1].term].log;
    assert log[k - 1] == log[..k][k - 1] == source[..k][k - 1];
  }

  /** The part of the winner's log that its ballot described comes from a leader that had won before. */
  lemma BallotPart(s: State, later: nat)
    requires LeadersInv(s) && LogsInv(s) && later in s.leaders && s.leaders[later].ballot.lastTerm != 0
    ensures var b := s.leaders[later].ballot; var won := s.leaders[later].log;
      && b.lastTerm in s.leaders && s.leaders[b.lastTerm].rank < s.leaders[later].rank
      && var source := s.leaders[b.lastTerm].log;
         && 0 < b.lastIndex <= |won| && b.lastIndex <= |source| && won[..b.lastIndex] == source[..b.lastIndex]
         && Sorted(source) && source[b.lastIndex - 1].term == b.lastTerm
  {
    BallotTerm(s, later);
    var won, b := s.leaders[later].log, s.leaders[later].ballot;
    assert LogOk(won, s.leaders) && LogOk(s.leaders[b.lastTerm].log, s.leaders);
    AnchoredPart(won, b.lastIndex, s.leaders);
  }

  lemma BallotTerm(s: State, later: nat)
    requires LeadersInv(s) && later in s.leaders && s.leaders[later].ballot.lastTerm != 0
    ensures var b := s.leaders[later].ballot; var won := s.leaders[later].log;
      && b.lastTerm in s.leaders && s.leaders[b.lastTerm].rank < s.leaders[later].rank
      && 0 < b.lastIndex <= |won| && won[b.lastIndex - 1].term == b.lastTerm
  {
    assert LeadershipOk(s, later);
  }

  /** A leader of a later term than a chosen entry's owes its log to, or lost an elector's entries to, a leader
      that won before it: if that one holds the chosen entries, so does this one. */
  lemma EarlierLeader(s: State, term: nat, k: nat, later: nat) returns (t: nat)
    requires LeadersInv(s) && LogsInv(s) && RemembersInv(s) && Chosen(s, term, k) && later in s.leaders && term < later
    ensures term <= t && t in s.leaders && s.leaders[t].rank < s.leaders[later].rank
    ensures Holds(s.leaders[t].log, s.leaders[term].log, k) ==> Holds(s.leaders[later].log, s.leaders[term].log, k)
  {
    var b := s.leaders[later].ballot;
    ElectorRemembers(s, term, k, later);
    if AtLeast(b.lastIndex, b.lastTerm, term, k) {
      assert LeadershipOk(s, term);
      BallotPart(s, later);
      t := b.lastTerm;
      if Holds(s.leaders[t].log, s.leaders[term].log, k) {
        PartHolds(s.leaders[later].log, s.leaders[t].log, s.leaders[term].log, term, k, b.lastIndex);
      }
    } else {
      t :| term < t && t in s.leaders && s.leaders[t].rank < s.leaders[later].rank
        && !Holds(s.leaders[t].log, s.leaders[term].log, k);
    }
  }

  /** Some leader of `term` or a later one had won before `later`, and passed on what it held. */
  ghost predicate HasEarlier(leaders: Leaders, term: nat, k: nat, later: nat)
    requires term in leaders && later in leaders
  {
    exists t :: term <= t && t in leaders && leaders[t].rank < leaders[later].rank &&
      (Holds(leaders[t].log, leaders[term].log, k) ==> Holds(leaders[later].log, leaders[term].log, k))
  }

  /** The induction is over the order in which terms were won, not over the terms. */
  lemma {:induction false} HeldByAll(leaders: Leaders, term: nat, k: nat, later: nat)
    requires term in leaders && later in leaders && term <= later && k <= |leaders[term].log|
    requires forall x | x in leaders && term < x :: HasEarlier(leaders, term, k, x)
    ensures Holds(leaders[later].log, leaders[term].log, k)
    decreases leaders[later].rank
  {
    if term < later {
      assert HasEarlier(leaders, term, k, later);
      var t :| term <= t && t in leaders && leaders[t].rank < leaders[later].rank &&
        (Holds(leaders[t].log, leaders[term].log, k) ==> Holds(leaders[later].log, leaders[term].log, k));
      HeldByAll(leaders, term, k, t);
    }
  }

  /** Every leader of the term of a chosen entry, or a later one, holds the leader's log up to it. */
  lemma ChosenHeld(s: State, term: nat, k: nat, later: nat)
    requires LeadersInv(s) && LogsInv(s) && RemembersInv(s) && Chosen(s, term, k) && later in s.leaders && term <= later
    ensures Holds(s.leaders[later].log, s.leaders[term].log, k)
  {
    forall x | x in s.leaders && term < x
      ensures HasEarlier(s.leaders, term, k, x)
    {
      var t := EarlierLeader(s, term, k, x);
    }
    HeldByAll(s.leaders, term, k, later);
  }

  // ----- a leader's commit -----

  /** A commit index that a leader object of the current term has moved is that of a chosen entry. */
  lemma AdvancedChosen(s: State, n: nat, reign: nat)
    requires Inv(s) && InTerm(s, n, reign) && TryCommit(s, n, reign).nodes[n].commitIndex > s.nodes[n].commitIndex
    ensures var s' := TryCommit(s, n, reign); var v' := s'.nodes[n]; Chosen(s', v'.currentTerm, v'.commitIndex)
  {
    AdvanceBound(s.nodes[n], reign);
    AdvanceChosen(s, n, reign);
    TryCommitInv(s, n, reign);
    var v := s.nodes[n];
    ChosenGrows(s, TryCommit(s, n, reign), v.currentTerm, TryAdvance(v, reign).commitIndex);
  }

  lemma WonChosen(s: State, n: nat, b: Ballot)
    requires Inv(s) && s.Has(n) && b in s.ballots && b.candidate == n && b.term == s.nodes[n].currentTerm
    requires MaybeWin(s, n, b).Has(n) && MaybeWin(s, n, b).nodes[n].commitIndex > s.nodes[n].commitIndex
    ensures var s' := MaybeWin(s, n, b); var v' := s'.nodes[n]; Chosen(s', v'.currentTerm, v'.commitIndex)
  {
    MaybeWinIs(s, n, b);
    var s1 := Enter(s, n, b);
    EnterInv(s, n, b);
    AdvancedChosen(s1, n, s1.nodes[n].roleId);
  }

  lemma AppendFollows(id: nat, v: Node, m: AppendMsg)
    ensures var v' := HandleAppend(id, v, m).0; v'.role.Leader? ==> v' == v
  {
  }

  lemma OpenedChosen(s: State, n: nat)
    requires Inv(s) && Enabled(s, BeginElection(n))
    requires Next(s, BeginElection(n)).nodes[n].commitIndex > s.nodes[n].commitIndex
    ensures var s' := Next(s, BeginElection(n)); var v' := s'.nodes[n]; Chosen(s', v'.currentTerm, v'.commitIndex)
  {
    var s1 := Open(s, n);
    OpenInv(s, n);
    WonChosen(s1, n, BallotOf(n, s1.nodes[n]));
  }

  lemma VotedChosen(s: State, n: nat, vote: Vote)
    requires Inv(s) && Enabled(s, DeliverVote(n, vote))
    requires Next(s, DeliverVote(n, vote)).nodes[n].commitIndex > s.nodes[n].commitIndex
    ensures var s' := Next(s, DeliverVote(n, vote)); var v' := s'.nodes[n]; Chosen(s', v'.currentTerm, v'.commitIndex)
  {
    CountInv(s, n, vote);
    assert VoteOk(s, vote);
    WonChosen(CountVote(s, n, vote), n, vote.ballot);
  }

  lemma RepliedChosen(s: State, n: nat, m: AppendMsg)
    requires Inv(s) && Enabled(s, DeliverSuccess(n, m)) && Timely(s, DeliverSuccess(n, m))
    requires Next(s, DeliverSuccess(n, m)).nodes[n].commitIndex > s.nodes[n].commitIndex
    ensures var s' := Next(s, DeliverSuccess(n, m)); var v' := s'.nodes[n]; Chosen(s', v'.currentTerm, v'.commitIndex)
  {
    RepliedFacts(s, n, m);
    SucceedInv(s, n, m);
    AdvancedChosen(Succeed(s, n, m), n, m.reign);
  }

  lemma RepliedFacts(s: State, n: nat, m: AppendMsg)
    requires Enabled(s, DeliverSuccess(n, m)) && Timely(s, DeliverSuccess(n, m))
    requires Next(s, DeliverSuccess(n, m)).nodes[n].commitIndex > s.nodes[n].commitIndex
    ensures MayNote(s, n, m) && InTerm(Succeed(s, n, m), n, m.reign)
    ensures Next(s, DeliverSuccess(n, m)) == TryCommit(Succeed(s, n, m), n, m.reign)
    ensures Succeed(s, n, m).nodes[n].commitIndex == s.nodes[n].commitIndex
  {
  }

  /** The other steps that leave a node leader do not raise its commit index. */
  lemma OthersFollow(s: State, step: Step)
    requires Enabled(s, step) && !step.BeginElection? && !step.DeliverVote? && !step.DeliverSuccess?
    ensures var v' := Next(s, step).nodes[step.n]; v'.role.Leader? ==> v'.commitIndex <= s.nodes[step.n].commitIndex
    ensures forall i | 0 <= i < |s.nodes| && i != step.n :: Next(s, step).nodes[i] == s.nodes[i]
  {
    match step
    case DeliverAppend(n, m) => AppendFollows(n, s.nodes[n], m);
    case _ =>
  }

  lemma WinElsewhere(s: State, n: nat, b: Ballot, i: nat)
    requires s.Has(n) && s.Has(i) && i != n
    ensures MaybeWin(s, n, b).Has(i) && MaybeWin(s, n, b).nodes[i] == s.nodes[i]
  {
  }

  /** A timely step after which a node is leader with a higher commit index than before has moved that index
      to an entry of the leader's own term that a majority has acknowledged in it. */
  lemma LeaderCommitChosen(s: State, step: Step, a: nat)
    requires Inv(s) && Enabled(s, step) && Timely(s, step) && s.Has(a)
    requires var v' := Next(s, step).nodes[a]; v'.role.Leader? && v'.commitIndex > s.nodes[a].commitIndex
    ensures var s' := Next(s, step); var v' := s'.nodes[a]; Chosen(s', v'.currentTerm, v'.commitIndex)
  {
    var n := step.n;
    LeaderOnly(s, step, a);
    match step
    case BeginElection(_) => OpenedChosen(s, n);
    case DeliverVote(_, vote) => VotedChosen(s, n, vote);
    case DeliverSuccess(_, m) => RepliedChosen(s, n, m);
    case _ => OthersFollow(s, step);
  }

  lemma LeaderOnly(s: State, step: Step, a: nat)
    requires Enabled(s, step) && s.Has(a) && Next(s, step).nodes[a].commitIndex > s.nodes[a].commitIndex
    ensures a == step.n
  {
    var n := step.n;
    if a != n {
      match step
      case BeginElection(_) =>
        var s1 := Open(s, n);
        WinElsewhere(s1, n, BallotOf(n, s1.nodes[n]), a);
      case DeliverVote(_, vote) => WinElsewhere(CountVote(s, n, vote), n, vote.ballot, a);
      case DeliverSuccess(_, m) =>
      case _ => OthersFollow(s, step);
    }
  }

  /** Once a leader of some term advances its commit index to N, in a timely step, the log of every leader of
      a later term, at any moment, starts with that leader's first N entries; crashes and restarts allowed,
      and all else that superseded leader objects may do. */
  lemma LeaderCompleteness(states: seq<State>, steps: seq<Step>, i: nat, j: nat, a: nat, b: nat)
    requires Run(states, steps) && i < |steps| && j < |states| && Timely(states[i], steps[i])
    requires states[i].Has(a) && states[i + 1].Has(a) && states[j].Has(b)
    requires states[i + 1].nodes[a].role.Leader? && states[i + 1].nodes[a].commitIndex > states[i].nodes[a].commitIndex
    requires states[j].nodes[b].role.Leader? && states[j].nodes[b].currentTerm > states[i + 1].nodes[a].currentTerm
    ensures Holds(states[j].nodes[b].log, states[i + 1].nodes[a].log, states[i + 1].nodes[a].commitIndex)
  {
    var s, s' := states[i + 1], states[j];
    var v, w := s.nodes[a], s'.nodes[b];
    var k := if i + 1 <= j then j else i + 1;
    RunInv(states, steps, i);
    LeaderCommitChosen(states[i], steps[i], a);
    RunInv(states, steps, i + 1);
    RunInv(states, steps, j);
    RunInv(states, steps, k);
    RunGrows(states, steps, i + 1, k);
    RunGrows(states, steps, j, k);
    LeaderHasLog(s, a);
    LeaderHasLog(s', b);
    ChosenGrows(s, states[k], v.currentTerm, v.commitIndex);
    ChosenHeld(states[k], v.currentTerm, v.commitIndex, w.currentTerm);
    HeldBefore(s, s', states[k], v.currentTerm, v.commitIndex, w.currentTerm);
  }

  lemma LeaderHasLog(s: State, a: nat)
    requires LeadersInv(s) && s.Has(a) && s.nodes[a].role.Leader?
    ensures var v := s.nodes[a]; v.currentTerm in s.leaders && s.leaders[v.currentTerm].log == v.log
  {
    assert RoleOk(s, a) && LeadershipOk(s, s.nodes[a].currentTerm);
  }

  lemma PrefixHeld(log: Log, log': Log, leader: Log, leader': Log, k: nat, later: nat)
    requires log <= log' && leader <= leader' && 1 <= k <= |leader| && Holds(log', leader', k)
    requires Sorted(log') && LastTerm(log) == later > leader[k - 1].term
    ensures Holds(log, leader, k)
  {
    assert log'[k - 1] == log'[..k][k - 1] == leader'[..k][k - 1] == leader[k - 1];
    assert log'[|log| - 1].term == later;
    assert log[..k] == log'[..k] == leader'[..k] == leader[..k];
  }

  /** What a later leader's log holds in the end it held from the start of that leadership. */
  lemma HeldBefore(s: State, s': State, end: State, term: nat, k: nat, later: nat)
    requires LeadersInv(s') && LogsInv(end) && Grows(s, end) && Grows(s', end)
    requires term in s.leaders && later in s'.leaders && term < later && OwnTermAt(s.leaders, term, k)
    requires Holds(end.leaders[later].log, end.leaders[term].log, k)
    ensures Holds(s'.leaders[later].log, s.leaders[term].log, k)
  {
    assert LeadershipOk(s', later) && LogOk(end.leaders[later].log, end.leaders);
    PrefixHeld(s'.leaders[later].log, end.leaders[later].log, s.leaders[term].log, end.leaders[term].log, k, later);
  }
}
