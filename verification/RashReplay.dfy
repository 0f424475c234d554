/** Why a node that restarts with an entry it does not know to be committed is left out of what is claimed
    about applied entries: a covered run, with whole tails and no late step, in which such a node applies
    an entry that is lost. */
module RashReplay {
  import opened Types
  import opened Logs
  import opened Nodes
  import opened Cluster
  import opened StateMachineSafety
  import opened Runs
  import Commitment

  const lost := LogEntry(1, [], 0, [7])

  const forA1 := Ballot(1, 0, 0, 0)
  const a1 := Node(1, Some(0), [NoOp(1)], Leader, 3, {0, 1}, map[3 := LeaderObject(1, [2, 1, 1], [1, 0, 0])],
                   0, 0, [], false)
  const b1 := Fresh.(currentTerm := 1, votedFor := Some(0), roleId := 2)
  const a1more := a1.(log := [NoOp(1), lost], leaderships := map[3 := LeaderObject(1, [3, 1, 1], [2, 0, 0])])

  /** Back from a crash: both entries have been replayed, though neither is known to be committed. */
  const a1rash := Node(1, Some(0), [NoOp(1), lost], Follower, 4, {}, map[], 0, 2, [NoOp(1), lost], true)

  const forC2 := Ballot(2, 2, 0, 0)
  const c2 := Node(2, Some(2), [NoOp(2)], Leader, 4, {2, 1}, map[4 := LeaderObject(2, [1, 1, 2], [0, 0, 1])],
                   0, 0, [], false)
  const b2 := b1.(currentTerm := 2, votedFor := Some(2), roleId := 3)
  const toB2 := AppendMsg(2, 1, 4, 2, 0, 0, [NoOp(2)], 0)
  const b2has := b2.(log := [NoOp(2)])
  const c2commits := c2.(leaderships := map[4 := LeaderObject(2, [1, 2, 2], [0, 1, 1])], commitIndex := 1)
  const c2applies := c2commits.(lastApplied := 1, applied := [NoOp(2)])
  const toA2 := AppendMsg(2, 0, 4, 2, 0, 0, [NoOp(2)], 1)
  const a2 := a1rash.(currentTerm := 2, votedFor := None, roleId := 5, log := [NoOp(2)], commitIndex := 1)

  lemma TermOne()
    ensures BallotOf(0, Opened(0, Fresh)) == forA1 && Elected(0, [1], Fresh, 3) == a1
    ensures HandleRequestVote(Fresh, forA1).0 == b1
    ensures Propose(0, a1, lost) == a1more && Restart(a1more) == a1rash
  {
    Book(0, 1, 3, [2, 1, 1], [1, 0, 0]);
    assert {0} + Members([1]) == {0, 1};
    var w := Propose(0, a1, lost);
    assert w.leaderships[3].next == [3, 1, 1] && w.leaderships[3].matched == [2, 0, 0];
    assert w.log == a1more.log && w.leaderships == a1more.leaderships;
  }

  lemma TermTwo()
    ensures BallotOf(2, Opened(2, b1)) == forC2 && Elected(2, [1], b1, 3) == c2 && HandleRequestVote(b1, forC2).0 == b2
    ensures BuildAppend(2, c2, 4, 1, 9) == toB2 && HandleAppend(1, b2, toB2) == (b2has, true)
  {
    Book(2, 1, 3, [1, 1, 2], [0, 0, 1]);
    assert {2} + Members([1]) == {2, 1};
    assert c2.log[0..1] == [NoOp(2)] && Append(b2.log, 0, [NoOp(2)]) == b2has.log;
  }

  lemma Committing()
    ensures 4 in c2.leaderships && TryAdvance(NoteSuccess(c2, 4, 1, 1), 4) == c2commits
    ensures ApplyCommitted(c2commits) == c2applies
  {
    var w := NoteSuccess(c2, 4, 1, 1);
    assert w.leaderships[4].next == [1, 2, 2] && w.leaderships[4].matched == [0, 1, 1];
    assert w.leaderships == c2commits.leaderships;
    Commitment.CandidateExact([0, 1, 1], 1);
    Commitment.CandidateExact([0, 1, 1], 2);
    assert Commitment.Holders([0, 1, 1], 1) == {1, 2};
    assert Commitment.Holders([0, 1, 1], 2) == {};
    assert [] + c2.log[0..1] == [NoOp(2)];
  }

  lemma Overwriting()
    ensures BuildAppend(2, c2applies, 4, 0, 9) == toA2 && HandleAppend(0, a1rash, toA2) == (a2, true)
  {
    assert c2.log[0..1] == [NoOp(2)];
    assert Append(a1rash.log, 0, [NoOp(2)]) == [NoOp(2)];
  }

  const whole := Style(true, true, None)

  lemma FirstTerm() returns (states: seq<State>, steps: seq<Step>, s: State)
    ensures RunTo(states, steps, s, {}, whole) && s.nodes == [a1rash, b1, b1]
  {
    TermOne();
    s := State([Fresh, Fresh, Fresh], {}, {}, {}, {}, {}, map[]);
    states, steps := [s], [];
    states, steps, s := ElectOne(states, steps, s, {}, whole, 0, 1, a1, b1);
    assert s.nodes == [a1, b1, Fresh];
    states, steps, s := Submits(states, steps, s, {}, whole, 0, lost);
    states, steps, s := Crashes(states, steps, s, {}, whole, 0);
    states, steps, s := Votes(states, steps, s, {}, whole, 2, forA1);
  }

  lemma SecondLeader() returns (states: seq<State>, steps: seq<Step>, s: State)
    ensures RunTo(states, steps, s, {}, whole) && s.nodes == [a1rash, b2, c2]
  {
    states, steps, s := FirstTerm();
    TermTwo();
    states, steps, s := ElectOne(states, steps, s, {}, whole, 2, 1, c2, b2);
    assert s.nodes == [a1rash, b2, c2];
  }

  lemma SecondSent() returns (states: seq<State>, steps: seq<Step>, s: State)
    ensures RunTo(states, steps, s, {}, whole) && s.nodes == [a1rash, b2has, c2] && toB2 in s.replies
  {
    states, steps, s := SecondLeader();
    TermTwo();
    states, steps, s := Ship(states, steps, s, {}, whole, 2, 4, 1, 9);
  }

  lemma SecondTerm() returns (states: seq<State>, steps: seq<Step>, s: State)
    ensures RunTo(states, steps, s, {}, whole) && s.nodes == [a1rash, b2has, c2applies]
  {
    states, steps, s := SecondSent();
    Committing();
    states, steps, s := Replies(states, steps, s, {}, whole, 2, toB2);
    assert s.nodes == [a1rash, b2has, c2commits];
    states, steps, s := AppliesAll(states, steps, s, {}, whole, 2);
  }

  /** In a covered run, with every request carrying its leader's whole tail and no call failing, node 0 has
      fed its state machine two entries of term 1 and node 2 one of term 2: what they have applied does not
      agree, and node 0 will never feed the committed entry. */
  lemma AppliedDisagree() returns (states: seq<State>, steps: seq<Step>)
    ensures CoveredRun(states, steps) && forall i | 0 <= i < |steps| :: WholeTail(states[i], steps[i])
    ensures var s := states[|steps|];
      && |s.nodes| == 3 && s.nodes[0].rash && !s.nodes[2].rash
      && s.nodes[0].log == s.nodes[2].log == s.nodes[2].applied && s.nodes[0].commitIndex == s.nodes[2].commitIndex == 1
      && s.nodes[0].lastApplied == 2 && s.nodes[0].applied == [NoOp(1), lost] && s.nodes[2].applied == [NoOp(2)]
  {
    var s: State;
    states, steps, s := SecondTerm();
    Overwriting();
    states, steps, s := Ship(states, steps, s, {}, whole, 2, 4, 0, 9);
    assert forall i: nat | i < |steps| :: StepOk(states[i], steps[i], false, whole);
    WholeTailRun(states, steps, |steps|);
  }
}
