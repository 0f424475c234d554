/** Building blocks for concrete runs of small clusters. */
module Runs {
  import opened Types
  import opened Logs
  import opened Quorums
  import opened Nodes
  import opened Handlers
  import opened Cluster
  import opened StateMachineSafety
  import Commitment
  import Preservation

  /** How a run goes: whether every request carries its leader's whole tail, whether no call fails and no
      request is refused, and whether requests have a batch limit. */
  datatype Style = Style(whole: bool, calm: bool, limit: Option<nat>)

  /** A run with its last state.  Only the steps in `late` may be those of superseded leader objects that
      move a commit index or send a request. */
  ghost predicate RunTo(states: seq<State>, steps: seq<Step>, s: State, late: set<nat>, style: Style) {
    && Run(states, steps) && states[|steps|] == s
    && forall i: nat | i < |steps| :: StepOk(states[i], steps[i], i in late, style)
  }

  ghost predicate StepOk(s: State, step: Step, late: bool, style: Style) {
    && (late || (Timely(s, step) && Current(s, step)))
    && (style.whole ==> WholeTail(s, step)) && (style.calm ==> !step.DeliverRejection?)
    && (style.limit.Some? && step.SendAppend? ==> step.maxBatch == style.limit.value)
  }

  /** A later step may be late, and calls may fail from now on. */
  lemma Looser(states: seq<State>, steps: seq<Step>, s: State, late: set<nat>, late': set<nat>, style: Style)
    requires RunTo(states, steps, s, late, style) && late <= late'
    ensures RunTo(states, steps, s, late', style) && RunTo(states, steps, s, late', style.(calm := false))
  {
    assert forall i: nat | i < |steps| :: StepOk(states[i], steps[i], i in late, style);
  }

  /** Nothing recorded is lost. */
  ghost predicate Keeps(s: State, t: State) {
    |t.nodes| == |s.nodes| && s.ballots <= t.ballots && s.votes <= t.votes &&
    s.appends <= t.appends && s.replies <= t.replies
  }

  /** The second run goes on from the first. */
  ghost predicate Continues(states: seq<State>, steps: seq<Step>, states': seq<State>, steps': seq<Step>) {
    states <= states' && steps <= steps'
  }

  lemma Go(states: seq<State>, steps: seq<Step>, s: State, late: set<nat>, style: Style, step: Step, t: State)
    returns (states': seq<State>, steps': seq<Step>)
    requires RunTo(states, steps, s, late, style) && Enabled(s, step) && t == Next(s, step)
    requires StepOk(s, step, |steps| in late, style)
    ensures RunTo(states', steps', t, late, style)
    ensures Continues(states, steps, states', steps')
    ensures states' == states + [t] && steps' == steps + [step]
  {
    states', steps' := states + [t], steps + [step];
    assert steps'[..|steps|] == steps;
    forall i: nat | i < |steps'|
      ensures Enabled(states'[i], steps'[i]) && states'[i + 1] == Next(states'[i], steps'[i])
      ensures StepOk(states'[i], steps'[i], i in late, style)
    {
      if i < |steps| {
        assert StepOk(states[i], steps[i], i in late, style);
      }
    }
  }

  // ----- an election won with the votes of some others -----

  function Members(voters: seq<nat>): set<nat> {
    set x | x in voters
  }

  predicate Distinct(voters: seq<nat>) {
    forall i, j | 0 <= i < j < |voters| :: voters[i] != voters[j]
  }

  lemma {:induction false} MembersSize(voters: seq<nat>)
    requires Distinct(voters)
    ensures |Members(voters)| == |voters|
  {
    if voters != [] {
      var front := voters[..|voters| - 1];
      MembersSize(front);
      assert Members(voters) == Members(front) + {voters[|voters| - 1]};
    }
  }

  function Opened(n: nat, v: Node): Node {
    OpenTerm(n, BecomeCandidate(v))
  }

  function Elected(n: nat, voters: seq<nat>, v: Node, size: nat): Node {
    BecomeLeader(n, size, Opened(n, v).(counted := {n} + Members(voters)))
  }

  lemma NoMajority(matched: seq<nat>, only: nat)
    requires |matched| > 1 && only < |matched| && forall i | 0 <= i < |matched| && i != only :: matched[i] == 0
    ensures Commitment.Candidate(matched) == 0
  {
    Commitment.CandidateExact(matched, 1);
    var a := Commitment.Holders(matched, 1);
    assert a == {} || a == {only};
  }

  lemma NothingToCommit(n: nat, voters: seq<nat>, v: Node, size: nat)
    requires n < size && size > 1
    ensures var w := Elected(n, voters, v, size); w.roleId in w.leaderships && TryAdvance(w, w.roleId) == w
  {
    var w := Elected(n, voters, v, size);
    NoMajority(w.leaderships[w.roleId].matched, n);
  }

  lemma TimesOut(states: seq<State>, steps: seq<Step>, s: State, late: set<nat>, style: Style, n: nat)
    returns (states': seq<State>, steps': seq<Step>, t: State)
    requires RunTo(states, steps, s, late, style) && s.Has(n) && !s.nodes[n].role.Leader?
    ensures RunTo(states', steps', t, late, style) && Keeps(s, t) && Continues(states, steps, states', steps')
    ensures t.nodes == s.nodes[n := BecomeCandidate(s.nodes[n])]
  {
    t := Next(s, Timeout(n));
    states', steps' := Go(states, steps, s, late, style, Timeout(n), t);
  }

  lemma Opens(states: seq<State>, steps: seq<Step>, s: State, late: set<nat>, style: Style, n: nat)
    returns (states': seq<State>, steps': seq<Step>, t: State)
    requires RunTo(states, steps, s, late, style) && s.Has(n) && |s.nodes| > 1 && s.nodes[n].role.Candidate?
    ensures RunTo(states', steps', t, late, style) && Keeps(s, t) && Continues(states, steps, states', steps')
    ensures var v := OpenTerm(n, s.nodes[n]); t.nodes == s.nodes[n := v] && BallotOf(n, v) in t.ballots
  {
    t := Next(s, BeginElection(n));
    states', steps' := Go(states, steps, s, late, style, BeginElection(n), t);
  }

  /** A vote request is handled. */
  lemma Votes(states: seq<State>, steps: seq<Step>, s: State, late: set<nat>, style: Style, voter: nat, b: Ballot)
    returns (states': seq<State>, steps': seq<Step>, t: State)
    requires RunTo(states, steps, s, late, style) && s.Has(voter) && b in s.ballots && b.candidate != voter
    ensures RunTo(states', steps', t, late, style) && Keeps(s, t) && Continues(states, steps, states', steps')
    ensures t.nodes == s.nodes[voter := HandleRequestVote(s.nodes[voter], b).0]
    ensures MayVote(s.nodes, b, voter) ==> Vote(voter, b) in t.votes
  {
    VoteExact(s.nodes[voter], b);
    t := Next(s, DeliverVoteRequest(voter, b));
    states', steps' := Go(states, steps, s, late, style, DeliverVoteRequest(voter, b), t);
  }

  /** The nodes after these voters have handled the ballot. */
  function Voted(nodes: seq<Node>, voters: seq<nat>, b: Ballot): (after: seq<Node>)
    ensures |after| == |nodes|
  {
    if voters == [] then nodes
    else
      var last, after := voters[|voters| - 1], Voted(nodes, voters[..|voters| - 1], b);
      if last < |nodes| then after[last := HandleRequestVote(nodes[last], b).0] else after
  }

  lemma {:induction false} VotedElsewhere(nodes: seq<Node>, voters: seq<nat>, b: Ballot, i: nat)
    requires i < |nodes| && i !in voters
    ensures Voted(nodes, voters, b)[i] == nodes[i]
  {
    if voters != [] {
      VotedElsewhere(nodes, voters[..|voters| - 1], b, i);
    }
  }

  lemma VotedTwo(nodes: seq<Node>, x: nat, y: nat, b: Ballot)
    requires x < |nodes| && y < |nodes| && x != y
    ensures Voted(nodes, [x, y], b) ==
      nodes[x := HandleRequestVote(nodes[x], b).0][y := HandleRequestVote(nodes[y], b).0]
  {
    assert [x, y][..1] == [x] && [x][..0] == [];
    assert Voted(nodes, [x], b) == nodes[x := HandleRequestVote(nodes[x], b).0];
  }

  /** Voter x has nothing against the ballot: its term is no later, its log no newer, and in the ballot's own term
      it is a follower and has voted for nobody else. */
  predicate MayVote(nodes: seq<Node>, b: Ballot, x: nat) {
    && x < |nodes| && x != b.candidate && nodes[x].currentTerm <= b.term
    && UpToDate(nodes[x].log, b.lastIndex, b.lastTerm)
    && (nodes[x].currentTerm == b.term ==>
          nodes[x].role.Follower? && (nodes[x].votedFor.None? || nodes[x].votedFor.value == b.candidate))
  }

  lemma {:induction false} VoteAll(states: seq<State>, steps: seq<Step>, s: State, late: set<nat>,
                                   style: Style, b: Ballot,
                                  voters: seq<nat>)
    returns (states': seq<State>, steps': seq<Step>, t: State)
    requires RunTo(states, steps, s, late, style) && b in s.ballots && Distinct(voters)
    requires forall x | x in voters :: MayVote(s.nodes, b, x)
    ensures RunTo(states', steps', t, late, style) && Keeps(s, t) && Continues(states, steps, states', steps')
    ensures t.nodes == Voted(s.nodes, voters, b) && forall x | x in voters :: Vote(x, b) in t.votes
    decreases |voters|
  {
    states', steps', t := states, steps, s;
    if voters != [] {
      var last, front := voters[|voters| - 1], voters[..|voters| - 1];
      var s1: State;
      states', steps', s1 := VoteAll(states, steps, s, late, style, b, front);
      assert last in voters && last !in front;
      VotedElsewhere(s.nodes, front, b, last);
      assert MayVote(s.nodes, b, last);
      states', steps', t := Votes(states', steps', s1, late, style, last, b);
    }
  }

  lemma Counting(n: nat, v: Node, voters: seq<nat>, voter: nat)
    requires n !in voters && voter !in voters && voter != n && Distinct(voters)
    ensures |{n} + Members(voters + [voter])| == |voters| + 2
    ensures var before, after := Opened(n, v).(counted := {n} + Members(voters)),
                                 Opened(n, v).(counted := {n} + Members(voters + [voter]));
      before.(counted := before.counted + {voter}) == after
  {
    MembersSize(voters);
    assert Members(voters + [voter]) == Members(voters) + {voter};
    assert ({n} + Members(voters)) + {voter} == {n} + Members(voters + [voter]);
  }

  lemma Counts(states: seq<State>, steps: seq<Step>, s: State, late: set<nat>, style: Style, n: nat, v: Node,
               voters: seq<nat>, voter: nat)
    returns (states': seq<State>, steps': seq<Step>, t: State)
    requires RunTo(states, steps, s, late, style) && s.Has(n) && n !in voters && voter !in voters && voter != n
    requires Distinct(voters) && |voters| + 2 < Majority(|s.nodes|)
    requires s.nodes[n] == Opened(n, v).(counted := {n} + Members(voters))
    requires Vote(voter, BallotOf(n, Opened(n, v))) in s.votes
    ensures RunTo(states', steps', t, late, style) && Keeps(s, t) && Continues(states, steps, states', steps')
    ensures t.nodes == s.nodes[n := Opened(n, v).(counted := {n} + Members(voters + [voter]))]
  {
    Counting(n, v, voters, voter);
    t := Next(s, DeliverVote(n, Vote(voter, BallotOf(n, Opened(n, v)))));
    states', steps' := Go(states, steps, s, late, style, DeliverVote(n, Vote(voter, BallotOf(n, Opened(n, v)))), t);
  }

  lemma WinsNext(s: State, n: nat, v: Node, voters: seq<nat>, voter: nat)
    requires s.Has(n) && n !in voters && voter !in voters && voter != n
    requires Distinct(voters) && |voters| + 2 == Majority(|s.nodes|) && |s.nodes| > 1
    requires s.nodes[n] == Opened(n, v).(counted := {n} + Members(voters))
    requires Vote(voter, BallotOf(n, Opened(n, v))) in s.votes
    ensures var step := DeliverVote(n, Vote(voter, BallotOf(n, Opened(n, v))));
      && Enabled(s, step) && Keeps(s, Next(s, step))
      && Next(s, step).nodes == s.nodes[n := Elected(n, voters + [voter], v, |s.nodes|)]
  {
    var b := BallotOf(n, Opened(n, v));
    var step := DeliverVote(n, Vote(voter, b));
    assert Enabled(s, step) && Next(s, step) == MaybeWin(CountVote(s, n, step.vote), n, b);
    Counting(n, v, voters, voter);
    LastCounted(CountVote(s, n, step.vote), n, v, voters + [voter], b);
  }

  lemma LastCounted(s: State, n: nat, v: Node, voters: seq<nat>, b: Ballot)
    requires s.Has(n) && s.nodes[n] == Opened(n, v).(counted := {n} + Members(voters)) && |s.nodes| > 1
    requires |{n} + Members(voters)| == Majority(|s.nodes|)
    ensures Keeps(s, MaybeWin(s, n, b)) && MaybeWin(s, n, b).nodes == s.nodes[n := Elected(n, voters, v, |s.nodes|)]
  {
    NothingToCommit(n, voters, v, |s.nodes|);
    Preservation.MaybeWinIs(s, n, b);
  }

  lemma Wins(states: seq<State>, steps: seq<Step>, s: State, late: set<nat>, style: Style, n: nat, v: Node,
             voters: seq<nat>, voter: nat)
    returns (states': seq<State>, steps': seq<Step>, t: State)
    requires RunTo(states, steps, s, late, style) && s.Has(n) && n !in voters && voter !in voters && voter != n
    requires Distinct(voters) && |voters| + 2 == Majority(|s.nodes|) && |s.nodes| > 1
    requires s.nodes[n] == Opened(n, v).(counted := {n} + Members(voters))
    requires Vote(voter, BallotOf(n, Opened(n, v))) in s.votes
    ensures RunTo(states', steps', t, late, style) && Keeps(s, t) && Continues(states, steps, states', steps')
    ensures t.nodes == s.nodes[n := Elected(n, voters + [voter], v, |s.nodes|)]
  {
    WinsNext(s, n, v, voters, voter);
    var step := DeliverVote(n, Vote(voter, BallotOf(n, Opened(n, v))));
    t := Next(s, step);
    states', steps' := Go(states, steps, s, late, style, step, t);
  }

  lemma {:induction false} CountAll(states: seq<State>, steps: seq<Step>, s: State, late: set<nat>, style: Style,
                                   n: nat, v: Node, voters: seq<nat>)
    returns (states': seq<State>, steps': seq<Step>, t: State)
    requires RunTo(states, steps, s, late, style) && s.Has(n) && n !in voters && Distinct(voters)
    requires s.nodes[n] == Opened(n, v) && |voters| + 1 < Majority(|s.nodes|)
    requires forall x | x in voters :: Vote(x, BallotOf(n, Opened(n, v))) in s.votes
    ensures RunTo(states', steps', t, late, style) && Keeps(s, t) && Continues(states, steps, states', steps')
    ensures t.nodes == s.nodes[n := Opened(n, v).(counted := {n} + Members(voters))]
    decreases |voters|
  {
    states', steps', t := states, steps, s;
    if voters == [] {
      assert {n} + Members(voters) == {n};
    } else {
      var last, front := voters[|voters| - 1], voters[..|voters| - 1];
      assert voters == front + [last];
      var s1: State;
      states', steps', s1 := CountAll(states, steps, s, late, style, n, v, front);
      states', steps', t := Counts(states', steps', s1, late, style, n, v, front, last);
    }
  }

  lemma OpenAndVote(states: seq<State>, steps: seq<Step>, s: State, late: set<nat>, style: Style, n: nat,
                    voters: seq<nat>)
    returns (states': seq<State>, steps': seq<Step>, t: State)
    requires RunTo(states, steps, s, late, style) && s.Has(n) && !s.nodes[n].role.Leader? && |s.nodes| > 1
    requires n !in voters && Distinct(voters)
    requires forall x | x in voters :: MayVote(s.nodes, BallotOf(n, Opened(n, s.nodes[n])), x)
    ensures RunTo(states', steps', t, late, style) && Keeps(s, t) && Continues(states, steps, states', steps')
    ensures var v := s.nodes[n]; var b := BallotOf(n, Opened(n, v));
      && b in t.ballots && t.nodes == Voted(s.nodes[n := Opened(n, v)], voters, b)
      && forall x | x in voters :: Vote(x, b) in t.votes
  {
    var v := s.nodes[n];
    var b := BallotOf(n, Opened(n, v));
    var t1, t2: State;
    states', steps', t1 := TimesOut(states, steps, s, late, style, n);
    states', steps', t2 := Opens(states', steps', t1, late, style, n);
    assert t2.nodes == s.nodes[n := Opened(n, v)];
    forall x | x in voters ensures MayVote(t2.nodes, b, x) {
      assert MayVote(s.nodes, b, x);
    }
    states', steps', t := VoteAll(states', steps', t2, late, style, b, voters);
  }

  lemma CountAndWin(states: seq<State>, steps: seq<Step>, s: State, late: set<nat>, style: Style,
                    n: nat, v: Node, voters: seq<nat>)
    returns (states': seq<State>, steps': seq<Step>, t: State)
    requires RunTo(states, steps, s, late, style) && s.Has(n) && n !in voters && Distinct(voters) && |s.nodes| > 1
    requires s.nodes[n] == Opened(n, v) && |voters| + 1 == Majority(|s.nodes|)
    requires forall x | x in voters :: Vote(x, BallotOf(n, Opened(n, v))) in s.votes
    ensures RunTo(states', steps', t, late, style) && Keeps(s, t) && Continues(states, steps, states', steps')
    ensures t.nodes == s.nodes[n := Elected(n, voters, v, |s.nodes|)]
  {
    var last, front := voters[|voters| - 1], voters[..|voters| - 1];
    assert voters == front + [last] && last !in front;
    var s1: State;
    states', steps', s1 := CountAll(states, steps, s, late, style, n, v, front);
    states', steps', t := Wins(states', steps', s1, late, style, n, v, front, last);
  }

  /** Node n stands, the voters grant their votes, and the last of them makes n leader. */
  lemma Elect(states: seq<State>, steps: seq<Step>, s: State, late: set<nat>, style: Style, n: nat, voters: seq<nat>)
    returns (states': seq<State>, steps': seq<Step>, t: State)
    requires RunTo(states, steps, s, late, style) && s.Has(n) && !s.nodes[n].role.Leader? && |s.nodes| > 1
    requires n !in voters && Distinct(voters) && |voters| + 1 == Majority(|s.nodes|)
    requires forall x | x in voters :: MayVote(s.nodes, BallotOf(n, Opened(n, s.nodes[n])), x)
    ensures RunTo(states', steps', t, late, style) && Keeps(s, t) && Continues(states, steps, states', steps')
    ensures var v := s.nodes[n]; var b := BallotOf(n, Opened(n, v));
      b in t.ballots && t.nodes == Voted(s.nodes[n := Opened(n, v)], voters, b)[n := Elected(n, voters, v, |s.nodes|)]
  {
    var v := s.nodes[n];
    var s1: State;
    states', steps', s1 := OpenAndVote(states, steps, s, late, style, n, voters);
    VotedElsewhere(s.nodes[n := Opened(n, v)], voters, BallotOf(n, Opened(n, v)), n);
    states', steps', t := CountAndWin(states', steps', s1, late, style, n, v, voters);
  }

  /** In a cluster of two or three, one other vote is enough. */
  lemma ElectOne(states: seq<State>, steps: seq<Step>, s: State, late: set<nat>, style: Style, n: nat, x: nat,
                 leader: Node, after: Node)
    returns (states': seq<State>, steps': seq<Step>, t: State)
    requires RunTo(states, steps, s, late, style) && s.Has(n) && !s.nodes[n].role.Leader? && 2 <= |s.nodes| <= 3
    requires n != x && MayVote(s.nodes, BallotOf(n, Opened(n, s.nodes[n])), x)
    requires leader == Elected(n, [x], s.nodes[n], |s.nodes|)
    requires after == HandleRequestVote(s.nodes[x], BallotOf(n, Opened(n, s.nodes[n]))).0
    ensures RunTo(states', steps', t, late, style) && Keeps(s, t) && Continues(states, steps, states', steps')
    ensures t.nodes == s.nodes[n := leader][x := after] && BallotOf(n, Opened(n, s.nodes[n])) in t.ballots
  {
    states', steps', t := Elect(states, steps, s, late, style, n, [x]);
    assert [x][..0] == [];
  }

  /** In a cluster of four or five, two are. */
  lemma ElectTwo(states: seq<State>, steps: seq<Step>, s: State, late: set<nat>, style: Style, n: nat, x: nat, y: nat,
                 leader: Node, x': Node, y': Node)
    returns (states': seq<State>, steps': seq<Step>, t: State)
    requires RunTo(states, steps, s, late, style) && s.Has(n) && !s.nodes[n].role.Leader? && 4 <= |s.nodes| <= 5
    requires n != x && n != y && x != y
    requires var b := BallotOf(n, Opened(n, s.nodes[n])); MayVote(s.nodes, b, x) && MayVote(s.nodes, b, y)
    requires leader == Elected(n, [x, y], s.nodes[n], |s.nodes|)
    requires var b := BallotOf(n, Opened(n, s.nodes[n]));
      x' == HandleRequestVote(s.nodes[x], b).0 && y' == HandleRequestVote(s.nodes[y], b).0
    ensures RunTo(states', steps', t, late, style) && Keeps(s, t) && Continues(states, steps, states', steps')
    ensures t.nodes == s.nodes[n := leader][x := x'][y := y'] && BallotOf(n, Opened(n, s.nodes[n])) in t.ballots
  {
    VotedTwo(s.nodes[n := Opened(n, s.nodes[n])], x, y, BallotOf(n, Opened(n, s.nodes[n])));
    states', steps', t := Elect(states, steps, s, late, style, n, [x, y]);
  }

  // ----- requests -----

  /** A leader object of n's, of whatever term, and a peer it serves. */
  ghost predicate Serves(s: State, n: nat, reign: nat, peer: nat) {
    && s.Has(n) && s.Has(peer) && n != peer && s.nodes[n].role.Leader?
    && reign in s.nodes[n].leaderships && |s.nodes[n].leaderships[reign].next| == |s.nodes|
  }

  lemma Sends(states: seq<State>, steps: seq<Step>, s: State, late: set<nat>, style: Style, n: nat, reign: nat,
              peer: nat, k: nat)
    returns (states': seq<State>, steps': seq<Step>, t: State)
    requires RunTo(states, steps, s, late, style) && Serves(s, n, reign, peer)
    requires StepOk(s, SendAppend(n, reign, peer, k), |steps| in late, style)
    ensures RunTo(states', steps', t, late, style) && Keeps(s, t) && Continues(states, steps, states', steps')
    ensures t.nodes == s.nodes && BuildAppend(n, s.nodes[n], reign, peer, k) in t.appends
    ensures steps' == steps + [SendAppend(n, reign, peer, k)]
  {
    t := Next(s, SendAppend(n, reign, peer, k));
    states', steps' := Go(states, steps, s, late, style, SendAppend(n, reign, peer, k), t);
  }

  lemma Arrives(states: seq<State>, steps: seq<Step>, s: State, late: set<nat>, style: Style, peer: nat, m: AppendMsg)
    returns (states': seq<State>, steps': seq<Step>, t: State)
    requires RunTo(states, steps, s, late, style) && s.Has(peer) && m in s.appends && m.to == peer
    ensures RunTo(states', steps', t, late, style) && Keeps(s, t) && Continues(states, steps, states', steps')
    ensures t.nodes == s.nodes[peer := HandleAppend(peer, s.nodes[peer], m).0]
    ensures HandleAppend(peer, s.nodes[peer], m).1 ==> m in t.replies
    ensures steps' == steps + [DeliverAppend(peer, m)]
  {
    t := Next(s, DeliverAppend(peer, m));
    states', steps' := Go(states, steps, s, late, style, DeliverAppend(peer, m), t);
  }

  /** A request is sent and arrives. */
  lemma Ship(states: seq<State>, steps: seq<Step>, s: State, late: set<nat>, style: Style,
             n: nat, reign: nat, peer: nat, k: nat)
    returns (states': seq<State>, steps': seq<Step>, t: State)
    requires RunTo(states, steps, s, late, style) && Serves(s, n, reign, peer)
    requires StepOk(s, SendAppend(n, reign, peer, k), |steps| in late, style)
    ensures RunTo(states', steps', t, late, style) && Keeps(s, t) && Continues(states, steps, states', steps')
    ensures var m := BuildAppend(n, s.nodes[n], reign, peer, k); var taken := HandleAppend(peer, s.nodes[peer], m);
      && t.nodes == s.nodes[peer := taken.0] && m in t.appends && (taken.1 ==> m in t.replies)
      && steps' == steps + [SendAppend(n, reign, peer, k), DeliverAppend(peer, m)]
  {
    var s1: State;
    states', steps', s1 := Sends(states, steps, s, late, style, n, reign, peer, k);
    states', steps', t := Arrives(states', steps', s1, late, style, peer, BuildAppend(n, s.nodes[n], reign, peer, k));
  }

  // ----- a failed call, and then part of the log -----

  function Restarted(v: Node, reign: nat, peer: nat): Node
    requires reign in v.leaderships && peer < |v.leaderships[reign].next|
  {
    var o := v.leaderships[reign];
    v.(leaderships := v.leaderships[reign := o.(next := o.next[peer := 1])])
  }

  function Part(n: nat, peer: nat, v: Node, reign: nat, k: nat): AppendMsg
    requires k <= |v.log|
  {
    AppendMsg(n, peer, reign, v.currentTerm, 0, 0, v.log[..k], v.commitIndex)
  }

  lemma Fails(states: seq<State>, steps: seq<Step>, s: State, late: set<nat>, style: Style, n: nat, reign: nat,
              peer: nat, m: AppendMsg)
    returns (states': seq<State>, steps': seq<Step>, t: State)
    requires RunTo(states, steps, s, late, style) && Serves(s, n, reign, peer) && m in s.appends
    requires m.from == n && m.to == peer && m.reign == reign
    requires s.nodes[n].leaderships[reign].next[peer] > 1 && !style.calm
    ensures RunTo(states', steps', t, late, style) && Keeps(s, t) && Continues(states, steps, states', steps')
    ensures t.nodes == s.nodes[n := Restarted(s.nodes[n], reign, peer)]
    ensures steps' == steps + [DeliverRejection(n, m, 0, 0)]
  {
    t := Next(s, DeliverRejection(n, m, 0, 0));
    states', steps' := Go(states, steps, s, late, style, DeliverRejection(n, m, 0, 0), t);
  }

  lemma PartIs(n: nat, peer: nat, v: Node, reign: nat, k: nat)
    requires reign in v.leaderships && peer < |v.leaderships[reign].next| && 1 <= k <= |v.log|
    requires v.leaderships[reign].term == v.currentTerm
    ensures BuildAppend(n, Restarted(v, reign, peer), reign, peer, k) == Part(n, peer, v, reign, k)
  {
    assert v.log[0..Min(|v.log|, k)] == v.log[..k];
  }

  lemma RestartedServes(s: State, t: State, n: nat, reign: nat, peer: nat)
    requires Serves(s, n, reign, peer) && t.nodes == s.nodes[n := Restarted(s.nodes[n], reign, peer)]
    ensures Serves(t, n, reign, peer) && (InTerm(s, n, reign) ==> InTerm(t, n, reign))
  {
  }

  /** The call fails, so the leader starts again at index 1, with k entries at most. */
  lemma Resend(states: seq<State>, steps: seq<Step>, s: State, late: set<nat>, style: Style,
               n: nat, reign: nat, peer: nat, k: nat)
    returns (states': seq<State>, steps': seq<Step>, t: State)
    requires RunTo(states, steps, s, late, style) && Serves(s, n, reign, peer) && InTerm(s, n, reign)
    requires s.nodes[n].leaderships[reign].next[peer] > 1 && 1 <= k <= |s.nodes[n].log|
    requires !style.calm && (style.limit.Some? ==> style.limit.value == k)
    requires style.whole ==> k == |s.nodes[n].log| && s.nodes[n].leaderships[reign].next[peer] <= k + 1
    ensures RunTo(states', steps', t, late, style) && Keeps(s, t) && Continues(states, steps, states', steps')
    ensures var v, m := s.nodes[n], Part(n, peer, s.nodes[n], reign, k);
      var lost, taken := BuildAppend(n, v, reign, peer, k), HandleAppend(peer, s.nodes[peer], m);
      && t.nodes == s.nodes[n := Restarted(v, reign, peer)][peer := taken.0]
      && m in t.appends && (taken.1 ==> m in t.replies)
      && steps' == steps + [SendAppend(n, reign, peer, k), DeliverRejection(n, lost, 0, 0),
                            SendAppend(n, reign, peer, k), DeliverAppend(peer, m)]
  {
    var v := s.nodes[n];
    var lost := BuildAppend(n, v, reign, peer, k);
    var t1, t2: State;
    states', steps', t1 := Sends(states, steps, s, late, style, n, reign, peer, k);
    states', steps', t2 := Fails(states', steps', t1, late, style, n, reign, peer, lost);
    RestartedServes(t1, t2, n, reign, peer);
    PartIs(n, peer, v, reign, k);
    states', steps', t := Ship(states', steps', t2, late, style, n, reign, peer, k);
  }

  // ----- other steps -----

  lemma Submits(states: seq<State>, steps: seq<Step>, s: State, late: set<nat>, style: Style, n: nat, entry: LogEntry)
    returns (states': seq<State>, steps': seq<Step>, t: State)
    requires RunTo(states, steps, s, late, style) && s.Has(n) && s.nodes[n].role.Leader?
    requires entry.term == s.nodes[n].currentTerm
    ensures RunTo(states', steps', t, late, style) && Keeps(s, t) && Continues(states, steps, states', steps')
    ensures t.nodes == s.nodes[n := Propose(n, s.nodes[n], entry)]
  {
    t := Next(s, Submit(n, entry));
    states', steps' := Go(states, steps, s, late, style, Submit(n, entry), t);
  }

  lemma Replies(states: seq<State>, steps: seq<Step>, s: State, late: set<nat>, style: Style, n: nat, m: AppendMsg)
    returns (states': seq<State>, steps': seq<Step>, t: State)
    requires RunTo(states, steps, s, late, style) && s.Has(n) && s.nodes[n].role.Leader? && m in s.replies
    requires m.from == n && m.reign in s.nodes[n].leaderships && (|steps| in late || InTerm(s, n, m.reign))
    ensures RunTo(states', steps', t, late, style) && Keeps(s, t) && Continues(states, steps, states', steps')
    ensures t.nodes == s.nodes[n := TryAdvance(NoteSuccess(s.nodes[n], m.reign, m.to, m.LastIndex()), m.reign)]
    ensures steps' == steps + [DeliverSuccess(n, m)] && states' == states + [t]
  {
    t := Next(s, DeliverSuccess(n, m));
    states', steps' := Go(states, steps, s, late, style, DeliverSuccess(n, m), t);
  }

  lemma Crashes(states: seq<State>, steps: seq<Step>, s: State, late: set<nat>, style: Style, n: nat)
    returns (states': seq<State>, steps': seq<Step>, t: State)
    requires RunTo(states, steps, s, late, style) && s.Has(n)
    ensures RunTo(states', steps', t, late, style) && Keeps(s, t) && Continues(states, steps, states', steps')
    ensures t.nodes == s.nodes[n := Restart(s.nodes[n])]
  {
    t := Next(s, Crash(n));
    states', steps' := Go(states, steps, s, late, style, Crash(n), t);
  }

  lemma AppliesAll(states: seq<State>, steps: seq<Step>, s: State, late: set<nat>, style: Style, n: nat)
    returns (states': seq<State>, steps': seq<Step>, t: State)
    requires RunTo(states, steps, s, late, style) && s.Has(n)
    ensures RunTo(states', steps', t, late, style) && Keeps(s, t) && Continues(states, steps, states', steps')
    ensures t.nodes == s.nodes[n := ApplyCommitted(s.nodes[n])]
  {
    t := Next(s, Apply(n));
    states', steps' := Go(states, steps, s, late, style, Apply(n), t);
  }

  /** The books of a leader of `size` nodes that has just written its first entry, at index n. */
  lemma Book(id: nat, n: nat, size: nat, next: seq<nat>, matched: seq<nat>)
    requires id < size && |next| == |matched| == size
    requires forall p | 0 <= p < size ::
      next[p] == (if p == id then n + 1 else n) && matched[p] == if p == id then n else 0
    ensures next == seq(size, p => if p == id then n + 1 else n) && matched == seq(size, p => if p == id then n else 0)
  {
  }
}
