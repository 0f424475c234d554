/** Why replies must be timely: a run of the program's own rules in which a leader role object of
    term 3 is handed a late reply when its node leads term 5, and commits an entry no other node has.
    Each node has a batch limit of its own: two entries for node 0, one for node 2. */
module StaleLeader {
  import opened Types
  import opened Logs
  import opened Nodes
  import opened Cluster
  import opened StateMachineSafety
  import opened Runs
  import Commitment

  // ----- the run; a, b and c are nodes 0, 1 and 2, and the digits are terms -----

  const command := LogEntry(1, [], 0, [7])

  const forA1 := Ballot(1, 0, 0, 0)
  const a1 := Node(1, Some(0), [NoOp(1)], Leader, 3, {0, 1}, map[3 := LeaderObject(1, [2, 1, 1], [1, 0, 0])],
                   0, 0, [], false)
  const b1 := Fresh.(currentTerm := 1, votedFor := Some(0), roleId := 2)
  const c1 := b1
  const a1more := a1.(log := [NoOp(1), command], leaderships := map[3 := LeaderObject(1, [3, 1, 1], [2, 0, 0])])

  const forC2 := Ballot(2, 2, 0, 0)
  const c2 := Node(2, Some(2), [NoOp(2)], Leader, 4, {2, 1}, map[4 := LeaderObject(2, [1, 1, 2], [0, 0, 1])],
                   0, 0, [], false)
  const b2 := b1.(currentTerm := 2, votedFor := Some(2), roleId := 3)
  const a2 := a1more.(currentTerm := 2, votedFor := None, role := Follower, roleId := 4, counted := {})

  const forA3 := Ballot(3, 0, 2, 1)
  const a3 := Node(3, Some(0), [NoOp(1), command, NoOp(3)], Leader, 6, {0, 1},
                   a1more.leaderships[6 := LeaderObject(3, [4, 3, 3], [3, 0, 0])], 0, 0, [], false)
  const b3 := b2.(currentTerm := 3, votedFor := Some(0), roleId := 4)
  const old3 := AppendMsg(0, 1, 6, 3, 0, 0, [NoOp(1), command], 0)
  const a3back := a3.(leaderships := a1more.leaderships[6 := LeaderObject(3, [4, 1, 3], [3, 0, 0])])
  const b3more := b3.(log := [NoOp(1), command])
  const c3 := c2.(currentTerm := 3, votedFor := None, role := Follower, roleId := 5, counted := {})

  const forC4 := Ballot(4, 2, 1, 2)
  const c4 := Node(4, Some(2), [NoOp(2), NoOp(4)], Leader, 7, {2, 1},
                   c2.leaderships[7 := LeaderObject(4, [2, 2, 3], [0, 0, 2])], 0, 0, [], false)
  const b4 := b3more.(currentTerm := 4, votedFor := Some(2), roleId := 5)
  const part4 := AppendMsg(2, 0, 7, 4, 0, 0, [NoOp(2)], 0)
  const c4back := c4.(leaderships := c2.leaderships[7 := LeaderObject(4, [1, 2, 3], [0, 0, 2])])
  const a4 := a3back.(currentTerm := 4, votedFor := None, role := Follower, roleId := 7, counted := {},
        log := [NoOp(2)])

  const forA5 := Ballot(5, 0, 1, 2)
  const a5 := Node(5, Some(0), [NoOp(2), NoOp(5)], Leader, 9, {0, 1},
                   a3back.leaderships[9 := LeaderObject(5, [3, 2, 2], [2, 0, 0])], 0, 0, [], false)
  const b5 := b4.(currentTerm := 5, votedFor := Some(0), roleId := 6)
  const c5 := c4back.(currentTerm := 5, votedFor := None, role := Follower, roleId := 8, counted := {})
  const a5commits := a5.(commitIndex := 2, leaderships := a5.leaderships[6 := LeaderObject(3, [4, 3, 3], [3, 2, 0])])

  const c6 := Node(6, Some(2), [NoOp(2), NoOp(4), NoOp(6)], Leader, 10, {2, 1},
                   c5.leaderships[10 := LeaderObject(6, [3, 3, 4], [0, 0, 3])], 0, 0, [], false)

  lemma TermsOneAndTwo()
    ensures BallotOf(0, Opened(0, Fresh)) == forA1 && Elected(0, [1], Fresh, 3) == a1
    ensures HandleRequestVote(Fresh, forA1).0 == b1 && Propose(0, a1, command) == a1more
    ensures BallotOf(2, Opened(2, c1)) == forC2 && Elected(2, [1], c1, 3) == c2
    ensures HandleRequestVote(b1, forC2).0 == b2 && HandleRequestVote(a1more, forC2).0 == a2
  {
    assert {0} + Members([1]) == {0, 1} && {2} + Members([1]) == {2, 1};
    Book(0, 1, 3, [2, 1, 1], [1, 0, 0]);
    Book(2, 1, 3, [1, 1, 2], [0, 0, 1]);
    var w := Propose(0, a1, command);
    assert w.leaderships[3].next == [3, 1, 1] && w.leaderships[3].matched == [2, 0, 0];
    assert w.log == a1more.log && w.leaderships == a1more.leaderships;
  }

  lemma TermThree()
    ensures BallotOf(0, Opened(0, a2)) == forA3 && Elected(0, [1], a2, 3) == a3 && HandleRequestVote(b2, forA3).0 == b3
    ensures Part(0, 1, a3, 6, 2) == old3 && Restarted(a3, 6, 1) == a3back
    ensures HandleAppend(1, b3, old3).0 == b3more && HandleRequestVote(c2, forA3).0 == c3
  {
    assert {0} + Members([1]) == {0, 1};
    Book(0, 3, 3, [4, 3, 3], [3, 0, 0]);
    assert Restarted(a3, 6, 1).leaderships[6].next == [4, 1, 3];
    assert Restarted(a3, 6, 1).leaderships == a3back.leaderships;
    assert Append([], 0, [NoOp(1), command]) == [NoOp(1), command];
  }

  lemma TermFour()
    ensures BallotOf(2, Opened(2, c3)) == forC4 && Elected(2, [1], c3, 3) == c4
    ensures HandleRequestVote(b3more, forC4).0 == b4
    ensures Part(2, 0, c4, 7, 1) == part4 && Restarted(c4, 7, 0) == c4back && HandleAppend(0, a3back, part4).0 == a4
  {
    assert {2} + Members([1]) == {2, 1};
    Book(2, 2, 3, [2, 2, 3], [0, 0, 2]);
    assert Restarted(c4, 7, 0).leaderships[7].next == [1, 2, 3];
    assert Restarted(c4, 7, 0).leaderships == c4back.leaderships;
    assert Append(a3.log, 0, [NoOp(2)]) == [NoOp(2)];
  }

  lemma TermFive()
    ensures BallotOf(0, Opened(0, a4)) == forA5 && Elected(0, [1], a4, 3) == a5 && HandleRequestVote(b4, forA5).0 == b5
    ensures HandleRequestVote(c4back, forA5).0 == c5 && Elected(2, [1], c5, 3) == c6
  {
    assert {0} + Members([1]) == {0, 1} && {2} + Members([1]) == {2, 1};
    Book(0, 2, 3, [3, 2, 2], [2, 0, 0]);
    Book(2, 3, 3, [3, 3, 4], [0, 0, 3]);
  }

  lemma LateReply()
    ensures 6 in a5.leaderships && TryAdvance(NoteSuccess(a5, 6, 1, 2), 6) == a5commits
  {
    var w := NoteSuccess(a5, 6, 1, 2);
    assert w.leaderships[6].next == [4, 3, 3] && w.leaderships[6].matched == [3, 2, 0];
    assert w.leaderships == a5commits.leaderships;
    Commitment.CandidateExact([3, 2, 0], 2);
    Commitment.CandidateExact([3, 2, 0], 3);
    assert Commitment.Holders([3, 2, 0], 2) == {0, 1};
    assert Commitment.Holders([3, 2, 0], 3) == {0};
  }

  const free := Style(false, false, None)

  lemma FirstTerm() returns (states: seq<State>, steps: seq<Step>, s: State)
    ensures RunTo(states, steps, s, {}, free) && s.nodes == [a1more, b1, c1]
  {
    TermsOneAndTwo();
    s := State([Fresh, Fresh, Fresh], {}, {}, {}, {}, {}, map[]);
    states, steps := [s], [];
    states, steps, s := ElectOne(states, steps, s, {}, free, 0, 1, a1, b1);
    assert s.nodes == [a1, b1, Fresh];
    states, steps, s := Votes(states, steps, s, {}, free, 2, forA1);
    states, steps, s := Submits(states, steps, s, {}, free, 0, command);
  }

  lemma SecondTerm() returns (states: seq<State>, steps: seq<Step>, s: State)
    ensures RunTo(states, steps, s, {}, free) && s.nodes == [a2, b2, c2]
  {
    states, steps, s := FirstTerm();
    TermsOneAndTwo();
    states, steps, s := ElectOne(states, steps, s, {}, free, 2, 1, c2, b2);
    assert s.nodes == [a1more, b2, c2];
    states, steps, s := Votes(states, steps, s, {}, free, 0, forC2);
  }

  lemma ThirdLeader() returns (states: seq<State>, steps: seq<Step>, s: State)
    ensures RunTo(states, steps, s, {}, free) && s.nodes == [a3, b3, c3]
  {
    states, steps, s := SecondTerm();
    TermThree();
    states, steps, s := ElectOne(states, steps, s, {}, free, 0, 1, a3, b3);
    assert s.nodes == [a3, b3, c2];
    states, steps, s := Votes(states, steps, s, {}, free, 2, forA3);
  }

  lemma ThirdTerm() returns (states: seq<State>, steps: seq<Step>, s: State)
    ensures RunTo(states, steps, s, {}, free) && s.nodes == [a3back, b3more, c3] && old3 in s.replies
  {
    states, steps, s := ThirdLeader();
    TermThree();
    states, steps, s := Resend(states, steps, s, {}, free, 0, 6, 1, 2);
  }

  lemma FourthTerm() returns (states: seq<State>, steps: seq<Step>, s: State)
    ensures RunTo(states, steps, s, {}, free) && s.nodes == [a4, b4, c4back] && old3 in s.replies
  {
    states, steps, s := ThirdTerm();
    TermFour();
    states, steps, s := ElectOne(states, steps, s, {}, free, 2, 1, c4, b4);
    assert s.nodes == [a3back, b4, c4];
    states, steps, s := Resend(states, steps, s, {}, free, 2, 7, 0, 1);
  }

  lemma FifthTerm() returns (states: seq<State>, steps: seq<Step>, s: State)
    ensures RunTo(states, steps, s, {}, free) && s.nodes == [a5, b5, c4back] && forA5 in s.ballots && old3 in s.replies
  {
    states, steps, s := FourthTerm();
    TermFive();
    states, steps, s := ElectOne(states, steps, s, {}, free, 0, 1, a5, b5);
    assert s.nodes == [a5, b5, c4back];
  }

  /** Leader Completeness fails if a superseded leader object's reply may move the commit index.  Step i is
      the one such step of the run: node 0, leader of term 5, commits index 2 on the strength of what node 1
      acknowledged in term 3; node 2, leader of term 6 in the end, has another entry there. */
  lemma CommitLost() returns (states: seq<State>, steps: seq<Step>, i: nat)
    ensures Run(states, steps) && i < |steps|
    ensures forall j | 0 <= j < |steps| :: Current(states[j], steps[j]) && (Timely(states[j], steps[j]) <==> j != i)
    ensures |states[i].nodes| == |states[i + 1].nodes| == |states[|steps|].nodes| == 3
    ensures var v, v', w := states[i].nodes[0], states[i + 1].nodes[0], states[|steps|].nodes[2];
      && v'.role.Leader? && w.role.Leader? && v'.currentTerm < w.currentTerm
      && v.commitIndex < v'.commitIndex && !Holds(w.log, v'.log, v'.commitIndex)
  {
    var s: State;
    states, steps, s, i := LateCommit();
    states, steps, s := Overtaken(states, steps, s, i);
    OnlyLate(states, steps, s, i);
    assert c6.log[..2][1] != a5commits.log[..2][1];
  }

  /** The late reply is handled. */
  lemma LateCommit() returns (states: seq<State>, steps: seq<Step>, s: State, i: nat)
    ensures RunTo(states, steps, s, {i}, free) && |steps| == i + 1 && steps[i] == DeliverSuccess(0, old3)
    ensures states[i].nodes == [a5, b5, c4back] && s.nodes == [a5commits, b5, c4back] && forA5 in s.ballots
  {
    states, steps, s := FifthTerm();
    LateReply();
    i := |steps|;
    Looser(states, steps, s, {}, {i}, free);
    states, steps, s := Replies(states, steps, s, {i}, free, 0, old3);
  }

  lemma OnlyLate(states: seq<State>, steps: seq<Step>, s: State, i: nat)
    requires RunTo(states, steps, s, {i}, free) && i < |steps| && steps[i] == DeliverSuccess(0, old3)
    requires states[i].nodes == [a5, b5, c4back] && states[i + 1].nodes == [a5commits, b5, c4back]
    ensures forall j | 0 <= j < |steps| :: Current(states[j], steps[j]) && (Timely(states[j], steps[j]) <==> j != i)
  {
    forall j | 0 <= j < |steps|
      ensures Current(states[j], steps[j]) && (Timely(states[j], steps[j]) <==> j != i)
    {
      assert StepOk(states[j], steps[j], j in {i}, free);
    }
  }

  /** Node 2 leads once more. */
  lemma Overtaken(states: seq<State>, steps: seq<Step>, s: State, i: nat)
    returns (states': seq<State>, steps': seq<Step>, t: State)
    requires RunTo(states, steps, s, {i}, free) && s.nodes == [a5commits, b5, c4back] && forA5 in s.ballots
    ensures RunTo(states', steps', t, {i}, free) && Continues(states, steps, states', steps')
    ensures |t.nodes| == 3 && t.nodes[2] == c6
  {
    TermFive();
    states', steps', t := Votes(states, steps, s, {i}, free, 2, forA5);
    states', steps', t := ElectOne(states', steps', t, {i}, free, 2, 1, c6, HandleRequestVote(b5, BallotOf(2,
                                   Opened(2, c5))).0);
  }
}
