/** Why a superseded leader object may not send whatever it likes: a run of five nodes, with whole tails, in which
    its retry of a failed call makes a node commit entries in the name of an old term, and the call that had
    failed, arriving after all, then takes them away. */
module LateRequest {
  import opened Types
  import opened Logs
  import opened Nodes
  import opened Cluster
  import opened StateMachineSafety
  import opened Runs
  import Commitment

  // ----- the run; a to e are nodes 0 to 4, and the digits are terms -----

  const lost := LogEntry(1, [], 0, [7])

  const forA1 := Ballot(1, 0, 0, 0)
  const a1 := Node(1, Some(0), [NoOp(1)], Leader, 3, {0, 2, 3},
                   map[3 := LeaderObject(1, [2, 1, 1, 1, 1], [1, 0, 0, 0, 0])], 0, 0, [], false)
  const v1 := Fresh.(currentTerm := 1, votedFor := Some(0), roleId := 2)
  const toB1 := AppendMsg(0, 1, 3, 1, 0, 0, [NoOp(1)], 0)
  const toE1 := toB1.(to := 4)
  const has1 := Fresh.(currentTerm := 1, roleId := 2, log := [NoOp(1)])
  const a1heard := a1.(leaderships := map[3 := LeaderObject(1, [2, 1, 1, 1, 2], [1, 0, 0, 0, 1])])
  const stale := LeaderObject(1, [3, 1, 1, 1, 2], [2, 0, 0, 0, 1])
  const a1more := a1.(log := [NoOp(1), lost], leaderships := map[3 := stale])
  const early := AppendMsg(0, 4, 3, 1, 1, 1, [lost], 0)

  const forB2 := Ballot(2, 1, 1, 1)
  const b2 := Node(2, Some(1), [NoOp(1), NoOp(2)], Leader, 4, {1, 2, 3},
                   map[4 := LeaderObject(2, [2, 3, 2, 2, 2], [0, 2, 0, 0, 0])], 0, 0, [], false)
  const v2 := v1.(currentTerm := 2, votedFor := Some(1), roleId := 3)
  const toA2 := AppendMsg(1, 0, 4, 2, 1, 1, [NoOp(2)], 0)
  const a2 := Node(2, None, [NoOp(1), NoOp(2)], Follower, 4, {}, map[3 := stale], 0, 0, [], false)

  const log3 := [NoOp(1), NoOp(2), NoOp(3)]

  const forA3 := Ballot(3, 0, 2, 2)
  const a3 := Node(3, Some(0), log3, Leader, 6, {0, 2, 3},
                   map[3 := stale, 6 := LeaderObject(3, [4, 3, 3, 3, 3], [3, 0, 0, 0, 0])], 0, 0, [], false)
  const v3 := v2.(currentTerm := 3, votedFor := Some(0), roleId := 4)
  const toC3 := AppendMsg(0, 2, 6, 3, 0, 0, log3, 0)
  const toD3 := toC3.(to := 3)
  const v3has := v3.(log := log3)
  const a3fails := a3.(leaderships := map[3 := stale, 6 := LeaderObject(3, [4, 3, 1, 3, 3], [3, 0, 0, 0, 0])])
  const a3one := a3.(leaderships := map[3 := stale, 6 := LeaderObject(3, [4, 3, 4, 3, 3], [3, 0, 3, 0, 0])])
  const a3again := a3.(leaderships := map[3 := stale, 6 := LeaderObject(3, [4, 3, 4, 1, 3], [3, 0, 3, 0, 0])])
  const book3 := LeaderObject(3, [4, 3, 4, 4, 3], [3, 0, 3, 3, 0])
  const a3commits := a3.(leaderships := map[3 := stale, 6 := book3], commitIndex := 3)

  /** The call `early` has failed, as far as node 0 can tell. */
  const back := LeaderObject(1, [3, 1, 1, 1, 1], [2, 0, 0, 0, 1])
  const a3retries := a3commits.(leaderships := map[3 := back, 6 := book3])
  const late := AppendMsg(0, 4, 3, 1, 0, 0, log3, 3)
  const e1 := has1.(log := log3, commitIndex := 3, lastApplied := 3, applied := log3)
  const e1lost := e1.(log := [NoOp(1), lost])

  lemma TermOne()
    ensures BallotOf(0, Opened(0, Fresh)) == forA1 && Elected(0, [2, 3], Fresh, 5) == a1
    ensures HandleRequestVote(Fresh, forA1).0 == v1
    ensures BuildAppend(0, a1, 3, 1, 9) == toB1 && HandleAppend(1, Fresh, toB1).0 == has1
    ensures BuildAppend(0, a1, 3, 4, 9) == toE1 && HandleAppend(4, Fresh, toE1) == (has1, true)
  {
    Book(0, 1, 5, [2, 1, 1, 1, 1], [1, 0, 0, 0, 0]);
    assert {0} + Members([2, 3]) == {0, 2, 3};
    assert a1.log[0..1] == [NoOp(1)] && Append([], 0, [NoOp(1)]) == [NoOp(1)];
  }

  lemma TermOneHeard()
    ensures 3 in a1.leaderships && TryAdvance(NoteSuccess(a1, 3, 4, 1), 3) == a1heard
  {
    var w := NoteSuccess(a1, 3, 4, 1);
    assert w.leaderships[3].next == [2, 1, 1, 1, 2] && w.leaderships[3].matched == [1, 0, 0, 0, 1];
    assert w.leaderships == a1heard.leaderships;
    Commitment.CandidateExact([1, 0, 0, 0, 1], 1);
    assert Commitment.Holders([1, 0, 0, 0, 1], 1) == {0, 4};
  }

  lemma TermOneMore()
    ensures Propose(0, a1heard, lost) == a1more && BuildAppend(0, a1more, 3, 4, 9) == early
  {
    var x := Propose(0, a1heard, lost);
    assert x.leaderships[3].next == stale.next && x.leaderships[3].matched == stale.matched;
    assert x.log == a1more.log && x.leaderships == a1more.leaderships;
    assert a1more.log[1..2] == [lost];
  }

  lemma TermTwo()
    ensures BallotOf(1, Opened(1, has1)) == forB2 && Elected(1, [2, 3], has1, 5) == b2
    ensures HandleRequestVote(v1, forB2).0 == v2
    ensures BuildAppend(1, b2, 4, 0, 9) == toA2 && HandleAppend(0, a1more, toA2) == (a2, true)
  {
    Book(1, 2, 5, [2, 3, 2, 2, 2], [0, 2, 0, 0, 0]);
    assert {1} + Members([2, 3]) == {1, 2, 3};
    assert b2.log[1..2] == [NoOp(2)] && Append(a1more.log, 1, [NoOp(2)]) == [NoOp(1), NoOp(2)];
  }

  lemma TermThree()
    ensures BallotOf(0, Opened(0, a2)) == forA3 && Elected(0, [2, 3], a2, 5) == a3
    ensures HandleRequestVote(v2, forA3).0 == v3
  {
    Book(0, 3, 5, [4, 3, 3, 3, 3], [3, 0, 0, 0, 0]);
    assert {0} + Members([2, 3]) == {0, 2, 3};
  }

  lemma FirstFails()
    ensures 6 in a3.leaderships && Restarted(a3, 6, 2) == a3fails
    ensures Part(0, 2, a3, 6, 3) == toC3 && HandleAppend(2, v3, toC3) == (v3has, true)
  {
    var w := Restarted(a3, 6, 2);
    assert w.leaderships[6].next == [4, 3, 1, 3, 3] && w.leaderships == a3fails.leaderships;
    assert log3[..3] == log3 && Append([], 0, log3) == log3;
  }

  lemma OneAcknowledged()
    ensures Commitment.Candidate([3, 0, 3, 0, 0]) == 0
  {
    Commitment.CandidateExact([3, 0, 3, 0, 0], 1);
    assert Commitment.Holders([3, 0, 3, 0, 0], 1) == {0, 2};
  }

  lemma TwoAcknowledged()
    ensures Commitment.Candidate([3, 0, 3, 3, 0]) == 3
  {
    Commitment.CandidateExact([3, 0, 3, 3, 0], 3);
    Commitment.CandidateExact([3, 0, 3, 3, 0], 4);
    assert Commitment.Holders([3, 0, 3, 3, 0], 3) == {0, 2, 3};
    assert Commitment.Holders([3, 0, 3, 3, 0], 4) == {};
  }

  lemma FirstReply()
    ensures 6 in a3fails.leaderships && TryAdvance(NoteSuccess(a3fails, 6, 2, 3), 6) == a3one
  {
    var w := NoteSuccess(a3fails, 6, 2, 3);
    assert w.leaderships[6].next == [4, 3, 4, 3, 3] && w.leaderships[6].matched == [3, 0, 3, 0, 0];
    assert w.leaderships == a3one.leaderships;
    OneAcknowledged();
  }

  lemma Again()
    ensures 6 in a3one.leaderships && Restarted(a3one, 6, 3) == a3again && Part(0, 3, a3one, 6, 3) == toD3
    ensures HandleAppend(3, v3, toD3) == (v3has, true)
  {
    var w := Restarted(a3one, 6, 3);
    assert w.leaderships[6].next == [4, 3, 4, 1, 3] && w.leaderships == a3again.leaderships;
    assert log3[..3] == log3 && Append([], 0, log3) == log3;
  }

  lemma SecondReply()
    ensures 6 in a3again.leaderships && TryAdvance(NoteSuccess(a3again, 6, 3, 3), 6) == a3commits
  {
    var w := NoteSuccess(a3again, 6, 3, 3);
    assert w.leaderships[6].next == [4, 3, 4, 4, 3] && w.leaderships[6].matched == [3, 0, 3, 3, 0];
    assert w.leaderships == a3commits.leaderships;
    TwoAcknowledged();
  }

  lemma EarlyFails()
    ensures 3 in a3commits.leaderships && Restarted(a3commits, 3, 4) == a3retries
  {
    var w := Restarted(a3commits, 3, 4);
    assert w.leaderships[3].next == back.next && w.leaderships == a3retries.leaderships;
  }

  lemma Lateness()
    ensures BuildAppend(0, a3retries, 3, 4, 9) == late && HandleAppend(4, has1, late).0 == e1
    ensures HandleAppend(4, e1, early).0 == e1lost
  {
    assert log3[0..3] == log3;
    assert Append([NoOp(1)], 0, log3) == Append([NoOp(1)], 1, log3[1..]) == log3;
    assert [] + log3[0..3] == e1.applied;
    assert Append(log3, 1, [lost]) == [NoOp(1), lost];
  }

  const whole := Style(true, false, None)

  lemma FirstLeader() returns (states: seq<State>, steps: seq<Step>, s: State)
    ensures RunTo(states, steps, s, {}, whole) && s.nodes == [a1, Fresh, v1, v1, Fresh]
  {
    TermOne();
    s := State([Fresh, Fresh, Fresh, Fresh, Fresh], {}, {}, {}, {}, {}, map[]);
    states, steps := [s], [];
    states, steps, s := ElectTwo(states, steps, s, {}, whole, 0, 2, 3, a1, v1, v1);
  }

  lemma FirstSent() returns (states: seq<State>, steps: seq<Step>, s: State)
    ensures RunTo(states, steps, s, {}, whole) && s.nodes == [a1, has1, v1, v1, has1] && toE1 in s.replies
  {
    states, steps, s := FirstLeader();
    TermOne();
    states, steps, s := Ship(states, steps, s, {}, whole, 0, 3, 1, 9);
    states, steps, s := Ship(states, steps, s, {}, whole, 0, 3, 4, 9);
  }

  lemma FirstHeard() returns (states: seq<State>, steps: seq<Step>, s: State)
    ensures RunTo(states, steps, s, {}, whole) && s.nodes == [a1heard, has1, v1, v1, has1]
  {
    states, steps, s := FirstSent();
    TermOneHeard();
    states, steps, s := Replies(states, steps, s, {}, whole, 0, toE1);
  }

  lemma FirstProposal() returns (states: seq<State>, steps: seq<Step>, s: State)
    ensures RunTo(states, steps, s, {}, whole) && s.nodes == [a1more, has1, v1, v1, has1]
  {
    states, steps, s := FirstHeard();
    TermOneMore();
    states, steps, s := Submits(states, steps, s, {}, whole, 0, lost);
  }

  lemma FirstTerm() returns (states: seq<State>, steps: seq<Step>, s: State)
    ensures RunTo(states, steps, s, {}, whole) && s.nodes == [a1more, has1, v1, v1, has1] && early in s.appends
  {
    states, steps, s := FirstProposal();
    TermOneMore();
    assert StepOk(s, SendAppend(0, 3, 4, 9), false, whole);
    states, steps, s := Sends(states, steps, s, {}, whole, 0, 3, 4, 9);
  }

  lemma SecondLeader() returns (states: seq<State>, steps: seq<Step>, s: State)
    ensures RunTo(states, steps, s, {}, whole) && s.nodes == [a1more, b2, v2, v2, has1] && early in s.appends
  {
    states, steps, s := FirstTerm();
    TermTwo();
    states, steps, s := ElectTwo(states, steps, s, {}, whole, 1, 2, 3, b2, v2, v2);
  }

  lemma SecondTerm() returns (states: seq<State>, steps: seq<Step>, s: State)
    ensures RunTo(states, steps, s, {}, whole) && s.nodes == [a2, b2, v2, v2, has1] && early in s.appends
  {
    states, steps, s := SecondLeader();
    TermTwo();
    states, steps, s := Ship(states, steps, s, {}, whole, 1, 4, 0, 9);
  }

  lemma ThirdLeader() returns (states: seq<State>, steps: seq<Step>, s: State)
    ensures RunTo(states, steps, s, {}, whole) && s.nodes == [a3, b2, v3, v3, has1] && early in s.appends
  {
    states, steps, s := SecondTerm();
    TermThree();
    states, steps, s := ElectTwo(states, steps, s, {}, whole, 0, 2, 3, a3, v3, v3);
  }

  lemma ThirdSent() returns (states: seq<State>, steps: seq<Step>, s: State)
    ensures RunTo(states, steps, s, {}, whole) && s.nodes == [a3fails, b2, v3has, v3, has1]
    ensures early in s.appends && toC3 in s.replies
  {
    states, steps, s := ThirdLeader();
    FirstFails();
    states, steps, s := Resend(states, steps, s, {}, whole, 0, 6, 2, 3);
  }

  lemma ThirdTerm() returns (states: seq<State>, steps: seq<Step>, s: State)
    ensures RunTo(states, steps, s, {}, whole) && s.nodes == [a3one, b2, v3has, v3, has1] && early in s.appends
  {
    states, steps, s := ThirdSent();
    FirstReply();
    states, steps, s := Replies(states, steps, s, {}, whole, 0, toC3);
  }

  lemma SentAgain() returns (states: seq<State>, steps: seq<Step>, s: State)
    ensures RunTo(states, steps, s, {}, whole) && s.nodes == [a3again, b2, v3has, v3has, has1]
    ensures early in s.appends && toD3 in s.replies
  {
    states, steps, s := ThirdTerm();
    Again();
    states, steps, s := Resend(states, steps, s, {}, whole, 0, 6, 3, 3);
  }

  lemma Committed() returns (states: seq<State>, steps: seq<Step>, s: State)
    ensures RunTo(states, steps, s, {}, whole) && s.nodes == [a3commits, b2, v3has, v3has, has1] && early in s.appends
  {
    states, steps, s := SentAgain();
    SecondReply();
    states, steps, s := Replies(states, steps, s, {}, whole, 0, toD3);
  }

  lemma Failed() returns (states: seq<State>, steps: seq<Step>, s: State)
    ensures RunTo(states, steps, s, {}, whole) && s.nodes == [a3retries, b2, v3has, v3has, has1] && early in s.appends
    ensures steps != [] && steps[|steps| - 1] == DeliverRejection(0, early, 0, 0)
  {
    states, steps, s := Committed();
    EarlyFails();
    states, steps, s := Fails(states, steps, s, {}, whole, 0, 3, 4, early);
  }

  /** The late request is sent and taken, and then the early one is. */
  lemma Taken(states: seq<State>, steps: seq<Step>, s: State)
    returns (states': seq<State>, steps': seq<Step>, s': State, t: State)
    requires RunTo(states, steps, s, {|steps|}, whole) && early in s.appends
    requires |s.nodes| == 5 && s.nodes[0] == a3retries && s.nodes[4] == has1
    ensures RunTo(states', steps', t, {|steps|}, whole) && states <= states'
    ensures steps' == steps + [SendAppend(0, 3, 4, 9), DeliverAppend(4, late), DeliverAppend(4, early)]
    ensures states'[|steps| + 2] == s'
    ensures s'.nodes == s.nodes[4 := e1] && t.nodes == s.nodes[4 := e1lost]
  {
    states', steps', s' := LateSent(states, steps, s);
    states', steps', t := EarlyArrives(states', steps', s', {|steps|});
  }

  lemma EarlyArrives(states: seq<State>, steps: seq<Step>, s: State, odd: set<nat>)
    returns (states': seq<State>, steps': seq<Step>, t: State)
    requires RunTo(states, steps, s, odd, whole) && early in s.appends && |s.nodes| == 5 && s.nodes[4] == e1
    ensures RunTo(states', steps', t, odd, whole) && states <= states' && steps' == steps + [DeliverAppend(4, early)]
    ensures t.nodes == s.nodes[4 := e1lost]
  {
    Lateness();
    states', steps', t := Arrives(states, steps, s, odd, whole, 4, early);
  }

  lemma LateSent(states: seq<State>, steps: seq<Step>, s: State)
    returns (states': seq<State>, steps': seq<Step>, s': State)
    requires RunTo(states, steps, s, {|steps|}, whole)
    requires |s.nodes| == 5 && s.nodes[0] == a3retries && s.nodes[4] == has1
    ensures RunTo(states', steps', s', {|steps|}, whole) && s.appends <= s'.appends && states <= states'
    ensures steps' == steps + [SendAppend(0, 3, 4, 9), DeliverAppend(4, late)]
    ensures s'.nodes == s.nodes[4 := e1]
  {
    Lateness();
    states', steps', s' := Ship(states, steps, s, {|steps|}, whole, 0, 3, 4, 9);
  }

  // ----- what is wrong with it -----

  lemma InStyle(states: seq<State>, steps: seq<Step>, s: State, i: nat)
    requires RunTo(states, steps, s, {i}, whole) && i < |steps| && steps[i] == SendAppend(0, 3, 4, 9)
    requires states[i].Has(0) && states[i].nodes[0] == a3retries
    ensures forall j | 0 <= j < |steps| ::
      Timely(states[j], steps[j]) && WholeTail(states[j], steps[j]) && (Current(states[j], steps[j]) <==> j != i)
  {
    forall j | 0 <= j < |steps|
      ensures Timely(states[j], steps[j]) && WholeTail(states[j], steps[j])
      ensures Current(states[j], steps[j]) <==> j != i
    {
      assert StepOk(states[j], steps[j], j in {i}, whole);
    }
  }

  /** Up to the late request the run is covered. */
  lemma CoveredBefore(states: seq<State>, steps: seq<Step>, s: State)
    requires RunTo(states, steps, s, {}, whole)
    ensures forall j | 0 <= j < |steps| :: Covered(states[j], steps[j])
  {
    forall j: nat | j < |steps|
      ensures Timely(states[j], steps[j]) && Current(states[j], steps[j]) && WholeTail(states[j], steps[j])
    {
      assert StepOk(states[j], steps[j], j in {}, whole);
    }
    WholeTailRun(states, steps, |steps|);
  }

  /** If that were, too, nothing committed could be lost. */
  lemma NotCovered(states: seq<State>, steps: seq<Step>, i: nat)
    requires Run(states, steps) && i < |steps| && |steps| > 0
    requires forall j | 0 <= j < |steps| :: Timely(states[j], steps[j]) && (j != i ==> Covered(states[j], steps[j]))
    requires states[|steps| - 1].Has(4) && states[|steps|].Has(4) && !steps[|steps| - 1].Crash?
    requires !steps[|steps| - 1].CrashInElection?
    requires states[|steps|].nodes[4].commitIndex > |states[|steps|].nodes[4].log|
    ensures !Covered(states[i], steps[i])
  {
    if Covered(states[i], steps[i]) {
      CommittedKept(states, steps, |steps| - 1, 4);
      assert false;
    }
  }

  /** State Machine Safety fails if a superseded leader object sends a request that is not covered.  Step i is the
      one such step of the run, the retry that follows a failed call; every request carries its leader's whole
      tail, and no reply is late.  Node 4 commits and applies the three entries that node 0 has committed; the
      call that had failed, of the term it is still in, then truncates two of them. */
  lemma CommittedLost() returns (states: seq<State>, steps: seq<Step>, i: nat)
    ensures Run(states, steps) && 0 < i < |steps| - 1
    ensures forall j | 0 <= j < |steps| ::
      Timely(states[j], steps[j]) && WholeTail(states[j], steps[j]) && (Current(states[j], steps[j]) <==> j != i)
    ensures forall j | 0 <= j < |steps| :: Covered(states[j], steps[j]) <==> j != i
    ensures steps[i - 1] == DeliverRejection(0, early, 0, 0) && steps[i] == SendAppend(0, early.reign, early.to, 9)
    ensures |states[|steps| - 1].nodes| == |states[|steps|].nodes| == 5
    ensures var e, e', a := states[|steps| - 1].nodes[4], states[|steps|].nodes[4], states[|steps|].nodes[0];
      && e.commitIndex == e'.commitIndex == a.commitIndex == 3 && e.log == a.log == e'.applied
      && |e'.log| == 2 && !Holds(e'.log, a.log, 2)
  {
    var s, t: State;
    states, steps, i, s, t := LateRun();
    InStyle(states, steps, t, i);
    NotCovered(states, steps, i);
    Lost();
  }

  lemma Lost()
    ensures !Holds(e1lost.log, a3retries.log, 2)
  {
    assert e1.log[..2][1] != e1lost.log[..2][1];
  }

  lemma LateRun() returns (states: seq<State>, steps: seq<Step>, i: nat, s: State, t: State)
    ensures RunTo(states, steps, t, {i}, whole) && |steps| == i + 3 && i > 0
    ensures steps[i - 1] == DeliverRejection(0, early, 0, 0) && steps[i] == SendAppend(0, 3, 4, 9)
    ensures steps[i + 1].DeliverAppend? && steps[i + 2].DeliverAppend? && steps[i + 2].n == 4
    ensures forall j | 0 <= j < |steps| && j != i :: Covered(states[j], steps[j])
    ensures |states[i].nodes| == 5 && states[i].nodes[0] == a3retries && states[i + 2] == s
    ensures |s.nodes| == |t.nodes| == 5 && s.nodes[4] == e1 && t.nodes[4] == e1lost && t.nodes[0] == a3retries
  {
    var r: State;
    states, steps, r := Failed();
    CoveredBefore(states, steps, r);
    i := |steps|;
    Looser(states, steps, r, {}, {i}, whole);
    var states', steps';
    states', steps', s, t := Taken(states, steps, r);
    StillCovered(states, steps, states', steps');
    states, steps := states', steps';
  }

  /** After the late request nothing is sent any more. */
  lemma StillCovered(states: seq<State>, steps: seq<Step>, states': seq<State>, steps': seq<Step>)
    requires |states| == |steps| + 1 && |states'| == |steps'| + 1 && states <= states' && steps <= steps'
    requires forall j | 0 <= j < |steps| :: Covered(states[j], steps[j])
    requires forall j | |steps| < j < |steps'| :: !steps'[j].SendAppend?
    ensures forall j | 0 <= j < |steps'| && j != |steps| :: Covered(states'[j], steps'[j])
  {
    forall j | 0 <= j < |steps'| && j != |steps|
      ensures Covered(states'[j], steps'[j])
    {
      if j < |steps| {
        assert states'[j] == states[j] && steps'[j] == steps[j];
      }
    }
  }
}
