/** Why requests must be covered: a run of the program's own rules, with a batch limit of one entry and
    one failed call, in which two nodes commit different entries at the same index. */
module PartialBatch {
  import opened Types
  import opened Logs
  import opened Nodes
  import opened Cluster
  import opened CommitCap
  import opened StateMachineSafety
  import opened Runs
  import Commitment

  // ----- the nodes as the run goes on; a, b and c are nodes 0, 1 and 2, and the digits are terms -----

  const lost := LogEntry(1, [], 0, [7])

  const forA1 := Ballot(1, 0, 0, 0)
  const a1 := Node(1, Some(0), [NoOp(1)], Leader, 3, {0, 1}, map[3 := LeaderObject(1, [2, 1, 1], [1, 0, 0])],
                   0, 0, [], false)
  const b1 := Fresh.(currentTerm := 1, votedFor := Some(0), roleId := 2)
  const toB1 := AppendMsg(0, 1, 3, 1, 0, 0, [NoOp(1)], 0)
  const toC1 := toB1.(to := 2)
  const b1has := b1.(log := [NoOp(1)])
  const c1 := Fresh.(currentTerm := 1, roleId := 2, log := [NoOp(1)])
  const a1more := a1.(log := [NoOp(1), lost], leaderships := map[3 := LeaderObject(1, [3, 1, 1], [2, 0, 0])])

  const forC2 := Ballot(2, 2, 1, 1)
  const c2 := Node(2, Some(2), [NoOp(1), NoOp(2)], Leader, 4, {2, 1}, map[4 := LeaderObject(2, [2, 2, 3], [0, 0, 2])],
                   0, 0, [], false)
  const b2 := b1has.(currentTerm := 2, votedFor := Some(2), roleId := 3)
  const toB2 := AppendMsg(2, 1, 4, 2, 1, 1, [NoOp(2)], 0)
  const b2has := b2.(log := [NoOp(1), NoOp(2)])
  const c2commits := c2.(leaderships := map[4 := LeaderObject(2, [2, 3, 3], [0, 2, 2])], commitIndex := 2)
  const c2back := c2commits.(leaderships := map[4 := LeaderObject(2, [1, 3, 3], [0, 2, 2])])
  const partial := AppendMsg(2, 0, 4, 2, 0, 0, [NoOp(1)], 2)
  const a2 := Node(2, None, [NoOp(1), lost], Follower, 4, {}, a1more.leaderships, 2, 2, [NoOp(1), lost], false)

  lemma TermOne()
    ensures BallotOf(0, Opened(0, Fresh)) == forA1 && Elected(0, [1], Fresh, 3) == a1
    ensures HandleRequestVote(Fresh, forA1).0 == b1
    ensures BuildAppend(0, a1, 3, 1, 1) == toB1 && HandleAppend(1, b1, toB1).0 == b1has
    ensures BuildAppend(0, a1, 3, 2, 1) == toC1 && HandleAppend(2, Fresh, toC1).0 == c1
    ensures Propose(0, a1, lost) == a1more
  {
    Book(0, 1, 3, [2, 1, 1], [1, 0, 0]);
    assert {0} + Members([1]) == {0, 1};
    assert a1.log[0..1] == [NoOp(1)] && Append([], 0, [NoOp(1)]) == [NoOp(1)];
    var w := Propose(0, a1, lost);
    assert w.leaderships[3].next == [3, 1, 1] && w.leaderships[3].matched == [2, 0, 0];
    assert w.log == a1more.log && w.leaderships == a1more.leaderships;
  }

  lemma TermTwo()
    ensures BallotOf(2, Opened(2, c1)) == forC2 && Elected(2, [1], c1, 3) == c2
    ensures HandleRequestVote(b1has, forC2).0 == b2
    ensures BuildAppend(2, c2, 4, 1, 1) == toB2 && HandleAppend(1, b2, toB2) == (b2has, true)
  {
    Book(2, 2, 3, [2, 2, 3], [0, 0, 2]);
    assert {2} + Members([1]) == {2, 1};
    assert c2.log[1..2] == [NoOp(2)] && Append(b2.log, 1, [NoOp(2)]) == b2has.log;
  }

  lemma Committing()
    ensures 4 in c2.leaderships && TryAdvance(NoteSuccess(c2, 4, 1, 2), 4) == c2commits
  {
    var w := NoteSuccess(c2, 4, 1, 2);
    assert w.leaderships[4].next == [2, 3, 3] && w.leaderships[4].matched == [0, 2, 2];
    assert w.leaderships == c2commits.leaderships;
    Commitment.CandidateExact([0, 2, 2], 2);
    Commitment.CandidateExact([0, 2, 2], 3);
    assert Commitment.Holders([0, 2, 2], 2) == {1, 2};
    assert Commitment.Holders([0, 2, 2], 3) == {};
  }

  lemma Misleading()
    ensures 4 in c2commits.leaderships && Restarted(c2commits, 4, 0) == c2back && Part(2, 0, c2commits, 4, 1) == partial
    ensures HandleAppend(0, a1more, partial).0 == a2
  {
    var w := Restarted(c2commits, 4, 0);
    assert w.leaderships[4].next == [1, 3, 3] && w.leaderships == c2back.leaderships;
    assert Append(a1more.log, 0, partial.entries) == a1more.log;
    assert [] + a1more.log[0..2] == a2.applied;
  }

  /** No call fails, and the batch limit is one. */
  const calm := Style(false, true, Some(1))

  lemma FirstLeader() returns (states: seq<State>, steps: seq<Step>, s: State)
    ensures RunTo(states, steps, s, {}, calm) && s.nodes == [a1, b1, Fresh]
  {
    TermOne();
    s := State([Fresh, Fresh, Fresh], {}, {}, {}, {}, {}, map[]);
    states, steps := [s], [];
    states, steps, s := ElectOne(states, steps, s, {}, calm, 0, 1, a1, b1);
    assert s.nodes == [a1, b1, Fresh];
  }

  lemma FirstTerm() returns (states: seq<State>, steps: seq<Step>, s: State)
    ensures RunTo(states, steps, s, {}, calm) && s.nodes == [a1more, b1has, c1]
  {
    states, steps, s := FirstLeader();
    TermOne();
    states, steps, s := Ship(states, steps, s, {}, calm, 0, 3, 1, 1);
    states, steps, s := Ship(states, steps, s, {}, calm, 0, 3, 2, 1);
    states, steps, s := Submits(states, steps, s, {}, calm, 0, lost);
  }

  lemma SecondLeader() returns (states: seq<State>, steps: seq<Step>, s: State)
    ensures RunTo(states, steps, s, {}, calm) && s.nodes == [a1more, b2, c2]
  {
    states, steps, s := FirstTerm();
    TermTwo();
    states, steps, s := ElectOne(states, steps, s, {}, calm, 2, 1, c2, b2);
    assert s.nodes == [a1more, b2, c2];
  }

  lemma SecondSent() returns (states: seq<State>, steps: seq<Step>, s: State)
    ensures RunTo(states, steps, s, {}, calm) && s.nodes == [a1more, b2has, c2] && toB2 in s.replies
  {
    states, steps, s := SecondLeader();
    TermTwo();
    states, steps, s := Ship(states, steps, s, {}, calm, 2, 4, 1, 1);
  }

  lemma SecondTerm() returns (states: seq<State>, steps: seq<Step>, s: State)
    ensures RunTo(states, steps, s, {}, calm) && s.nodes == [a1more, b2has, c2commits]
  {
    states, steps, s := SecondSent();
    Committing();
    states, steps, s := Replies(states, steps, s, {}, calm, 2, toB2);
  }

  /** Node 0 and node 2 both commit index 2, with different entries there, though every leader object acts
      in its term; the batch limit is one, and step i is the one failed call.  Node 2, the leader of term 2,
      committed its own entry on a majority; node 0 committed a lost entry of term 1, because the request
      `partial` vouches only for index 1 but carries commit index 2. */
  lemma CommitsDisagree() returns (states: seq<State>, steps: seq<Step>, i: nat)
    ensures Run(states, steps)
    ensures forall j | 0 <= j < |steps| :: Timely(states[j], steps[j]) && Current(states[j], steps[j])
    ensures forall j | 0 <= j < |steps| && steps[j].SendAppend? :: steps[j].maxBatch == 1
    ensures i < |steps| && forall j | 0 <= j < |steps| :: steps[j].DeliverRejection? <==> j == i
    ensures steps[i].conflictIndex == 0 && steps[i].conflictTerm == 0
    ensures partial in states[|steps|].appends && !CoversFrom(partial, c2commits.log, 2)
    ensures var s := states[|steps|];
      && s.nodes == [a2, b2has, c2back] && s.nodes[0].commitIndex == s.nodes[2].commitIndex == 2
      && s.nodes[0].log[1] != s.nodes[2].log[1] && s.nodes[0].applied == s.nodes[0].log
  {
    var s: State;
    states, steps, s := SecondTerm();
    Misleading();
    i := |steps| + 1;
    assert forall j: nat | j < |steps| :: StepOk(states[j], steps[j], false, calm);
    Looser(states, steps, s, {}, {}, calm);
    states, steps, s := Resend(states, steps, s, {}, calm.(calm := false), 2, 4, 0, 1);
    InStyle(states, steps, s);
    assert !Settled(c2commits.log, 1, 2);
  }

  lemma InStyle(states: seq<State>, steps: seq<Step>, s: State)
    requires RunTo(states, steps, s, {}, calm.(calm := false))
    ensures forall j | 0 <= j < |steps| :: Timely(states[j], steps[j]) && Current(states[j], steps[j])
    ensures forall j | 0 <= j < |steps| && steps[j].SendAppend? :: steps[j].maxBatch == 1
  {
    forall j | 0 <= j < |steps|
      ensures Timely(states[j], steps[j]) && Current(states[j], steps[j])
      ensures steps[j].SendAppend? ==> steps[j].maxBatch == 1
    {
      assert StepOk(states[j], steps[j], false, calm.(calm := false));
    }
  }
}
