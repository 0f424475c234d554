/** What a leader's match indexes mean: who stored what, in which term.  Stated over whole runs. */
module Acknowledgements {
  import opened Types
  import opened Logs
  import opened Quorums
  import opened Nodes
  import opened Cluster
  import opened Invariants
  import opened Growth
  import opened Preservation
  import opened Safety
  import opened CommitCap
  import opened StateMachineSafety

  /** Node p is in `term` and its log starts with the first k entries of `leader`. */
  ghost predicate Stored(s: State, p: nat, leader: Log, term: nat, k: nat) {
    s.Has(p) && s.nodes[p].currentTerm == term && Holds(s.nodes[p].log, leader, k)
  }

  ghost predicate StoredBy(states: seq<State>, i: nat, p: nat, leader: Log, term: nat, k: nat)
    requires i < |states|
  {
    exists h :: 0 <= h <= i && Stored(states[h], p, leader, term, k)
  }

  ghost predicate StoredByQuorum(states: seq<State>, i: nat, q: set<nat>, leader: Log, term: nat, k: nat)
    requires i < |states|
  {
    Quorum(q, |states[i].nodes|) && forall p | p in q :: StoredBy(states, i, p, leader, term, k)
  }

  ghost predicate StoredByMajority(states: seq<State>, i: nat, leader: Log, term: nat, k: nat)
    requires i < |states|
  {
    exists q :: StoredByQuorum(states, i, q, leader, term, k)
  }

  // ----- every acknowledgement was true when it was given -----

  /** A leader's note of its own last index. */
  predicate OwnAck(v: Node, n: nat, a: Ack) {
    v.role.Leader? && a == Ack(n, v.currentTerm, |v.log|)
  }

  lemma WinAcks(s: State, n: nat, b: Ballot, a: Ack)
    requires s.Has(n) && a in MaybeWin(s, n, b).acks && a !in s.acks
    ensures MaybeWin(s, n, b).Has(n) && OwnAck(MaybeWin(s, n, b).nodes[n], n, a)
  {
  }

  lemma WhoAcks(s: State, step: Step, a: Ack)
    requires Enabled(s, step) && a in Next(s, step).acks && a !in s.acks
    ensures if step.DeliverAppend?
            then HandleAppend(step.n, s.nodes[step.n], step.msg).1 && a in AckOf(s, step.n, step.msg)
            else OwnAck(Next(s, step).nodes[step.n], step.n, a)
  {
    var n := step.n;
    match step
    case BeginElection(_) =>
      var s1 := Open(s, n);
      WinAcks(s1, n, BallotOf(n, s1.nodes[n]), a);
    case DeliverVote(_, vote) => WinAcks(CountVote(s, n, vote), n, vote.ballot, a);
    case Submit(_, entry) => assert LeaderAppend(s, n, entry).nodes[n].role.Leader?;
    case _ =>
  }

  lemma TakenStored(s: State, n: nat, m: AppendMsg)
    requires LogsInv(s) && MayTake(s, n, m) && m.term in s.leaders && Stretch(m, s.leaders[m.term].log)
    ensures Holds(Append(s.nodes[n].log, m.prevIndex, m.entries), s.leaders[m.term].log, m.LastIndex())
  {
    var log, leader := s.nodes[n].log, s.leaders[m.term].log;
    assert LogOk(log, s.leaders) && LogOk(leader, s.leaders);
    AnchoredMatch(log, leader, s.leaders);
    var cut := AfterShape(log, m, leader);
  }

  lemma CommitAndApplyKeeps(v: Node, commitIndex: nat)
    ensures var v' := ApplyCommitted(RaiseCommit(v, commitIndex)); v'.log == v.log && v'.currentTerm == v.currentTerm
  {
  }

  lemma DeliveredStored(s: State, n: nat, m: AppendMsg)
    requires LogsInv(s) && s.Has(n) && m in s.appends && m.to == n && HandleAppend(n, s.nodes[n], m).1
    requires m.term in s.leaders && Stretch(m, s.leaders[m.term].log)
    ensures Deliver(s, n, m).leaders == s.leaders
    ensures Stored(Deliver(s, n, m), n, s.leaders[m.term].log, m.term, m.LastIndex())
  {
    var f := Receive(s.nodes[n], m);
    ReceiveLocal(s.nodes[n], m);
    var s1 := s.With(n, f);
    forall i | 0 <= i < |s1.nodes| ensures LogOk(s1.nodes[i].log, s1.leaders) {
      assert LogOk(s.nodes[i].log, s.leaders);
    }
    DeliverIsTake(s, n, m);
    TakenStored(s1, n, m);
    CommitAndApplyKeeps(Take(s1, n, m).nodes[n], m.leaderCommit);
  }

  lemma OwnAckStored(s: State, n: nat, a: Ack)
    requires LeadersInv(s) && s.Has(n) && OwnAck(s.nodes[n], n, a)
    ensures a.term in s.leaders && Stored(s, a.node, s.leaders[a.term].log, a.term, a.index)
  {
    LeaderHasLog(s, n);
  }

  lemma NewAckStored(s: State, step: Step, a: Ack)
    requires LogsInv(s) && Enabled(s, step) && LeadersInv(Next(s, step)) && a in Next(s, step).acks && a !in s.acks
    ensures var s' := Next(s, step); a.term in s'.leaders && Stored(s', a.node, s'.leaders[a.term].log, a.term, a.index)
  {
    WhoAcks(s, step, a);
    if step.DeliverAppend? {
      DeliveredStored(s, step.n, step.msg);
    } else {
      NodesElsewhere(s, step);
      OwnAckStored(Next(s, step), step.n, a);
    }
  }

  lemma StillStored(states: seq<State>, i: nat, p: nat, leader: Log, leader': Log, term: nat, k: nat)
    requires 0 < i < |states| && StoredBy(states, i - 1, p, leader, term, k) && leader <= leader'
    ensures StoredBy(states, i, p, leader', term, k)
  {
    var h :| 0 <= h <= i - 1 && Stored(states[h], p, leader, term, k);
    HoldsGrows(states[h].nodes[p].log, leader, leader', k);
    assert Stored(states[h], p, leader', term, k);
  }

  /** Acknowledgements new in s' are true there. */
  ghost predicate NewAcksTrue(s: State, s': State) {
    forall a | a in s'.acks && a !in s.acks ::
      a.term in s'.leaders && Stored(s', a.node, s'.leaders[a.term].log, a.term, a.index)
  }

  ghost predicate AcksTrue(states: seq<State>) {
    && (states != [] ==> states[0].acks == {})
    && forall i | 0 <= i < |states| - 1 :: Grows(states[i], states[i + 1]) && NewAcksTrue(states[i], states[i + 1])
  }

  lemma StepAcksTrue(states: seq<State>, steps: seq<Step>, i: nat)
    requires Run(states, steps) && i < |steps|
    ensures Grows(states[i], states[i + 1]) && NewAcksTrue(states[i], states[i + 1])
  {
    StepGrows(states, steps, i);
    RunInv(states, steps, i);
    RunInv(states, steps, i + 1);
    forall a | a in states[i + 1].acks && a !in states[i].acks
      ensures a.term in states[i + 1].leaders
      ensures Stored(states[i + 1], a.node, states[i + 1].leaders[a.term].log, a.term, a.index)
    {
      NewAckStored(states[i], steps[i], a);
    }
  }

  lemma RunAcksTrue(states: seq<State>, steps: seq<Step>)
    requires Run(states, steps)
    ensures AcksTrue(states)
  {
    forall i | 0 <= i < |states| - 1
      ensures Grows(states[i], states[i + 1]) && NewAcksTrue(states[i], states[i + 1])
    {
      StepAcksTrue(states, steps, i);
    }
  }

  lemma {:induction false} AckStoredAlong(states: seq<State>, i: nat, a: Ack)
    requires AcksTrue(states) && i < |states| && a in states[i].acks
    ensures a.term in states[i].leaders && StoredBy(states, i, a.node, states[i].leaders[a.term].log, a.term, a.index)
  {
    assert i > 0 ==> Grows(states[i - 1], states[i - 1 + 1]) && NewAcksTrue(states[i - 1], states[i - 1 + 1]);
    if a in states[i - 1].acks {
      AckStoredAlong(states, i - 1, a);
      StillStored(states, i, a.node, states[i - 1].leaders[a.term].log, states[i].leaders[a.term].log, a.term, a.index);
    }
  }

  /** An acknowledgement is never given for entries the node did not have, in that term, at that moment. */
  lemma AckStored(states: seq<State>, steps: seq<Step>, i: nat, a: Ack)
    requires Run(states, steps) && i < |states| && a in states[i].acks
    ensures a.term in states[i].leaders && StoredBy(states, i, a.node, states[i].leaders[a.term].log, a.term, a.index)
  {
    RunAcksTrue(states, steps);
    AckStoredAlong(states, i, a);
  }

  lemma StoredLess(states: seq<State>, i: nat, p: nat, leader: Log, term: nat, k: nat, less: nat)
    requires i < |states| && StoredBy(states, i, p, leader, term, k) && less <= k
    ensures StoredBy(states, i, p, leader, term, less)
  {
    var h :| 0 <= h <= i && Stored(states[h], p, leader, term, k);
    var log := states[h].nodes[p].log;
    assert log[..less] == log[..k][..less] == leader[..k][..less] == leader[..less];
    assert Stored(states[h], p, leader, term, less);
  }

  /** A leader's match index for p is truthful: p has, at some earlier moment in the leader's term,
      stored the leader's entries up to there. */
  lemma MatchStored(states: seq<State>, steps: seq<Step>, i: nat, n: nat, p: nat, k: nat)
    requires Run(states, steps) && i < |states| && states[i].Has(n) && states[i].Has(p)
    requires states[i].nodes[n].role.Leader?
    ensures var v := states[i].nodes[n];
      v.roleId in v.leaderships && p < |v.leaderships[v.roleId].matched| &&
      (0 < k <= v.leaderships[v.roleId].matched[p] ==> StoredBy(states, i, p, v.log, v.currentTerm, k))
  {
    var s := states[i];
    var v := s.nodes[n];
    RunInv(states, steps, i);
    LeaderHasLog(s, n);
    assert RoleOk(s, n) && BookOk(s, n, v.roleId);
    var index := v.leaderships[v.roleId].matched[p];
    if 0 < k <= index {
      AckStored(states, steps, i, Ack(p, v.currentTerm, index));
      StoredLess(states, i, p, v.log, v.currentTerm, index, k);
    }
  }

  /** Every commit by a leader in a timely step is backed by a majority: each of its nodes has, in the leader's term,
      stored the leader's log up to the new commit index. */
  lemma CommitBacked(states: seq<State>, steps: seq<Step>, i: nat, n: nat)
    requires Run(states, steps) && i < |steps| && Timely(states[i], steps[i])
    requires states[i].Has(n) && states[i + 1].Has(n)
    requires states[i + 1].nodes[n].role.Leader? && states[i + 1].nodes[n].commitIndex > states[i].nodes[n].commitIndex
    ensures var v := states[i + 1].nodes[n];
      StoredByMajority(states, i + 1, v.log, v.currentTerm, v.commitIndex)
  {
    var s := states[i + 1];
    var v := s.nodes[n];
    RunInv(states, steps, i);
    LeaderCommitChosen(states[i], steps[i], n);
    RunInv(states, steps, i + 1);
    LeaderHasLog(s, n);
    var q :| AckedByAll(s, q, v.currentTerm, v.commitIndex);
    forall p | p in q
      ensures StoredBy(states, i + 1, p, v.log, v.currentTerm, v.commitIndex)
    {
      assert Acked(s, p, v.currentTerm, v.commitIndex);
      var a :| a in s.acks && a.node == p && a.term == v.currentTerm && a.index >= v.commitIndex;
      AckStored(states, steps, i + 1, a);
      StoredLess(states, i + 1, p, v.log, v.currentTerm, a.index, v.commitIndex);
    }
    assert StoredByQuorum(states, i + 1, q, v.log, v.currentTerm, v.commitIndex);
  }

  // ----- match indexes only rise -----

  ghost predicate NoLower(o: LeaderObject, o': LeaderObject) {
    |o'.matched| == |o.matched| && forall p | 0 <= p < |o.matched| :: o.matched[p] <= o'.matched[p]
  }

  /** Leader objects are kept or dropped, new ones have new ids, and no match index falls. */
  ghost predicate BooksRise(v: Node, v': Node) {
    && v.roleId <= v'.roleId
    && forall r | r in v'.leaderships ::
         if r in v.leaderships && r <= v.roleId then NoLower(v.leaderships[r], v'.leaderships[r]) else r > v.roleId
  }

  lemma TryCommitBooks(s: State, n: nat, reign: nat)
    requires s.Has(n) && reign in s.nodes[n].leaderships
    ensures var v, v' := s.nodes[n], TryCommit(s, n, reign).nodes[n];
      v'.roleId == v.roleId && v'.leaderships == v.leaderships
  {
  }

  lemma WinBooks(s: State, n: nat, b: Ballot)
    requires s.Has(n)
    ensures MaybeWin(s, n, b).Has(n) && BooksRise(s.nodes[n], MaybeWin(s, n, b).nodes[n])
  {
    if |s.nodes[n].counted| >= Majority(|s.nodes|) {
      var s1 := Enter(s, n, b);
      TryCommitBooks(s1, n, s1.nodes[n].roleId);
    }
  }

  lemma AppendBooks(id: nat, v: Node, m: AppendMsg)
    ensures BooksRise(v, HandleAppend(id, v, m).0)
  {
  }

  ghost predicate IdsUsed(v: Node) {
    forall r | r in v.leaderships :: r <= v.roleId
  }

  lemma NoteBooks(v: Node, reign: nat, peer: nat, index: nat, term: nat)
    requires reign in v.leaderships && IdsUsed(v)
    ensures BooksRise(v, NoteSuccess(v, reign, peer, index)) && BooksRise(v, NoteRejection(v, reign, peer, index, term))
  {
  }

  lemma ProposeBooks(id: nat, v: Node, entry: LogEntry)
    requires IdsUsed(v)
    ensures BooksRise(v, Propose(id, v, entry))
  {
  }

  lemma StepBooks(s: State, step: Step)
    requires Enabled(s, step) && IdsUsed(s.nodes[step.n])
    ensures Next(s, step).Has(step.n) && BooksRise(s.nodes[step.n], Next(s, step).nodes[step.n])
  {
    var n := step.n;
    var v := s.nodes[n];
    match step
    case BeginElection(_) =>
      var s1 := Open(s, n);
      WinBooks(s1, n, BallotOf(n, s1.nodes[n]));
    case DeliverVote(_, vote) => WinBooks(CountVote(s, n, vote), n, vote.ballot);
    case Submit(_, entry) => ProposeBooks(n, v, entry);
    case DeliverSuccess(_, m) =>
      NoteBooks(v, m.reign, m.to, m.LastIndex(), 0);
      TryCommitBooks(Succeed(s, n, m), n, m.reign);
    case DeliverRejection(_, m, conflictIndex, conflictTerm) =>
      NoteBooks(v, m.reign, m.to, conflictIndex, conflictTerm);
    case DeliverAppend(_, m) => AppendBooks(n, v, m);
    case _ =>
  }

  /** Node n's leader objects from each state to the next. */
  ghost predicate BooksRising(states: seq<State>, n: nat) {
    && (forall i | 0 <= i < |states| :: states[i].Has(n) && IdsUsed(states[i].nodes[n]))
    && (forall i | 0 <= i < |states| - 1 :: BooksRise(states[i].nodes[n], states[i + 1].nodes[n]))
  }

  lemma IdsAreUsed(s: State, n: nat)
    requires BooksInv(s) && s.Has(n)
    ensures IdsUsed(s.nodes[n])
  {
    assert forall r | r in s.nodes[n].leaderships :: BookOk(s, n, r);
  }

  lemma RunBooks(states: seq<State>, steps: seq<Step>, n: nat)
    requires Run(states, steps) && states[0].Has(n)
    ensures BooksRising(states, n)
  {
    forall i | 0 <= i < |states|
      ensures states[i].Has(n) && IdsUsed(states[i].nodes[n])
    {
      RunInv(states, steps, i);
      RunGrows(states, steps, 0, i);
      IdsAreUsed(states[i], n);
    }
    forall i | 0 <= i < |steps|
      ensures BooksRise(states[i].nodes[n], states[i + 1].nodes[n])
    {
      NodesElsewhere(states[i], steps[i]);
      if steps[i].n == n {
        StepBooks(states[i], steps[i]);
      }
    }
  }

  lemma {:induction false} BooksAlong(states: seq<State>, i: nat, j: nat, n: nat, reign: nat)
    requires BooksRising(states, n) && i <= j < |states| && reign in states[i].nodes[n].leaderships
    ensures states[i].nodes[n].roleId <= states[j].nodes[n].roleId
    ensures reign in states[j].nodes[n].leaderships ==>
      NoLower(states[i].nodes[n].leaderships[reign], states[j].nodes[n].leaderships[reign])
    decreases j
  {
    if i < j {
      BooksAlong(states, i, j - 1, n, reign);
      assert BooksRise(states[j - 1].nodes[n], states[j].nodes[n]);
    }
  }

  /** Within a leadership no match index ever goes down. */
  lemma MatchRises(states: seq<State>, steps: seq<Step>, i: nat, j: nat, n: nat, reign: nat)
    requires Run(states, steps) && i <= j < |states| && states[i].Has(n) && states[j].Has(n)
    requires reign in states[i].nodes[n].leaderships && reign in states[j].nodes[n].leaderships
    ensures NoLower(states[i].nodes[n].leaderships[reign], states[j].nodes[n].leaderships[reign])
  {
    RunGrows(states, steps, 0, i);
    RunBooks(states, steps, n);
    BooksAlong(states, i, j, n, reign);
  }
}
