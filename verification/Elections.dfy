/** What a run can still come to, whatever has happened in it: a node that a quorum has nothing against can be elected,
    and can then commit a command.  Safety alone would also hold of nodes that refuse everything. */
module Elections {
  import opened Types
  import opened Logs
  import opened Quorums
  import opened Nodes
  import opened Cluster
  import opened Invariants
  import opened Preservation
  import opened Safety
  import opened StateMachineSafety
  import opened Handlers
  import opened Progress
  import opened Runs
  import Commitment

  /** The rest of the run may go as it likes. */
  const any := Style(false, false, None)

  /** The steps so far. */
  function SoFar(n: nat): (r: set<nat>)
    ensures forall i: nat :: i in r <==> i < n
  {
    if n == 0 then {} else SoFar(n - 1) + {n - 1}
  }

  lemma AnyRun(states: seq<State>, steps: seq<Step>)
    requires Run(states, steps)
    ensures RunTo(states, steps, states[|steps|], SoFar(|steps|), any)
  {
  }

  /** n - 1 others out of a set that contains n and is large enough. */
  lemma {:induction false} Others(q: set<nat>, n: nat, k: nat) returns (voters: seq<nat>)
    requires |q - {n}| >= k
    ensures |voters| == k && Distinct(voters) && n !in voters && forall x | x in voters :: x in q
  {
    voters := [];
    if k > 0 {
      var x :| x in q - {n};
      assert q - {n} == (q - {x} - {n}) + {x};
      var rest := Others(q - {x}, n, k - 1);
      voters := rest + [x];
      assert x !in rest;
    }
  }

  /** Nobody of the quorum, other than n itself, has anything against n's standing for the next term. */
  ghost predicate Electable(s: State, n: nat, q: set<nat>) {
    && s.Has(n) && !s.nodes[n].role.Leader? && n in q && Quorum(q, |s.nodes|)
    && forall x | x in q && x != n :: MayVote(s.nodes, BallotOf(n, Opened(n, s.nodes[n])), x)
  }

  /** Node n leads the term after v's, and its log is v's and the no-op. */
  ghost predicate LeadsAfter(t: State, n: nat, v: Node) {
    && t.Has(n) && t.nodes[n].role.Leader? && t.nodes[n].currentTerm == v.currentTerm + 1
    && t.nodes[n].log == v.log + [NoOp(v.currentTerm + 1)]
  }

  lemma ElectAlone(states: seq<State>, steps: seq<Step>, s: State, late: set<nat>, n: nat)
    returns (states': seq<State>, steps': seq<Step>, t: State)
    requires RunTo(states, steps, s, late, any) && s.Has(n) && |s.nodes| == 1 && !s.nodes[n].role.Leader?
    ensures RunTo(states', steps', t, late, any) && Continues(states, steps, states', steps')
    ensures LeadsAfter(t, n, s.nodes[n])
  {
    var s1: State;
    states', steps', s1 := TimesOut(states, steps, s, late, any, n);
    t := Next(s1, BeginElection(n));
    MaybeWinIs(Open(s1, n), n, BallotOf(n, Open(s1, n).nodes[n]));
    states', steps' := Go(states', steps', s1, late, any, BeginElection(n), t);
  }

  /** In any run, at any moment, a node that a quorum has nothing against can be elected. */
  lemma CanLead(states: seq<State>, steps: seq<Step>, n: nat, q: set<nat>)
    returns (states': seq<State>, steps': seq<Step>)
    requires Run(states, steps) && Electable(states[|steps|], n, q)
    ensures Run(states', steps') && states <= states' && steps <= steps'
    ensures LeadsAfter(states'[|steps'|], n, states[|steps|].nodes[n])
  {
    var s := states[|steps|];
    AnyRun(states, steps);
    var t: State;
    if |s.nodes| == 1 {
      states', steps', t := ElectAlone(states, steps, s, SoFar(|steps|), n);
    } else {
      var voters := Others(q, n, Majority(|s.nodes|) - 1);
      states', steps', t := Elect(states, steps, s, SoFar(|steps|), any, n, voters);
    }
  }

  // ----- a command gets committed -----

  /** What the leader is after an exchange with x in which x has taken the whole log. */
  function Heard(v: Node, reign: nat, x: nat): Node
    requires reign in v.leaderships && x < |v.leaderships[reign].next|
  {
    var asked := if v.leaderships[reign].next[x] > 1 then Restarted(v, reign, x) else v;
    TryAdvance(NoteSuccess(asked, reign, x, |v.log|), reign)
  }

  lemma HeardFacts(v: Node, reign: nat, x: nat)
    requires reign in v.leaderships
    requires var o := v.leaderships[reign]; x < |o.next| == |o.matched|
    ensures var v', o := Heard(v, reign, x), v.leaderships[reign];
      && v' == v.(leaderships := v'.leaderships, commitIndex := v'.commitIndex) && reign in v'.leaderships
      && var o' := v'.leaderships[reign];
         && o'.term == o.term && |o'.next| == |o.next| && |o'.matched| == |o.matched| && o'.matched[x] >= |v.log|
         && forall p | 0 <= p < |o.next| :: o'.matched[p] >= o.matched[p] && (p != x ==> o'.next[p] == o.next[p])
    ensures TryAdvance(Heard(v, reign, x), reign) == Heard(v, reign, x)
  {
    AdvanceTwice(NoteSuccess(if v.leaderships[reign].next[x] > 1 then Restarted(v, reign, x) else v, reign, x, |v.log|),
                 reign);
  }

  lemma AdvanceTwice(v: Node, reign: nat)
    requires reign in v.leaderships
    ensures TryAdvance(TryAdvance(v, reign), reign) == TryAdvance(v, reign)
  {
  }

  /** A leader's own object, whose call at index 1 is next for x. */
  ghost predicate MayAsk(s: State, n: nat, reign: nat, x: nat) {
    && Serves(s, n, reign, x) && InTerm(s, n, reign) && s.nodes[n].roleId == reign && s.nodes[n].log != []
    && |s.nodes[n].leaderships[reign].matched| == |s.nodes|
    && s.nodes[n].leaderships[reign].next[x] >= 1 && s.nodes[x].currentTerm <= s.nodes[n].currentTerm
  }

  lemma WholeSent(n: nat, v: Node, reign: nat, x: nat, w: Node)
    requires reign in v.leaderships && x < |v.leaderships[reign].next| && v.leaderships[reign].next[x] == 1
    requires v.leaderships[reign].term == v.currentTerm && n != x && w.currentTerm <= v.currentTerm
    ensures var m := BuildAppend(n, v, reign, x, |v.log|);
      && m.prevIndex == 0 && m.LastIndex() == |v.log| && m.to == x && m.from == n && m.reign == reign
      && HandleAppend(x, w, m).1 && HandleAppend(x, w, m).0.currentTerm == v.currentTerm
  {
  }

  /** If the next index is not 1 already, a failed call makes it so. */
  lemma BackToStart(states: seq<State>, steps: seq<Step>, s: State, late: set<nat>, n: nat, reign: nat, x: nat)
    returns (states': seq<State>, steps': seq<Step>, t: State)
    requires RunTo(states, steps, s, late, any) && MayAsk(s, n, reign, x)
    ensures RunTo(states', steps', t, late, any) && Continues(states, steps, states', steps')
    ensures var v := s.nodes[n];
      t.nodes == s.nodes[n := if v.leaderships[reign].next[x] > 1 then Restarted(v, reign, x) else v]
  {
    states', steps', t := states, steps, s;
    if s.nodes[n].leaderships[reign].next[x] > 1 {
      states', steps', t := Sends(states, steps, s, late, any, n, reign, x, 0);
      states', steps', t := Fails(states', steps', t, late, any, n, reign, x, BuildAppend(n, s.nodes[n], reign, x, 0));
    }
  }

  /** The whole log is sent to x, which takes it, and the leader hears of it. */
  lemma Exchange(states: seq<State>, steps: seq<Step>, s: State, late: set<nat>, n: nat, reign: nat, x: nat)
    returns (states': seq<State>, steps': seq<Step>, t: State)
    requires RunTo(states, steps, s, late, any) && MayAsk(s, n, reign, x)
    ensures RunTo(states', steps', t, late, any) && Continues(states, steps, states', steps')
    ensures |t.nodes| == |s.nodes| && t.nodes[n] == Heard(s.nodes[n], reign, x)
    ensures t.nodes[x].currentTerm == s.nodes[n].currentTerm
    ensures forall i | 0 <= i < |s.nodes| && i != n && i != x :: t.nodes[i] == s.nodes[i]
  {
    var s1, s2: State;
    states', steps', s1 := BackToStart(states, steps, s, late, n, reign, x);
    var v, w := s1.nodes[n], s1.nodes[x];
    WholeSent(n, v, reign, x, w);
    var m := BuildAppend(n, v, reign, x, |v.log|);
    states', steps', s2 := Ship(states', steps', s1, late, any, n, reign, x, |v.log|);
    states', steps', t := Replies(states', steps', s2, late, any, n, m);
  }

  /** What a round of exchanges leaves of the leader: match indexes have only risen, those of the voters to the end
      of the log, and nothing further can be committed on the strength of them. */
  ghost predicate RoundOf(v: Node, v': Node, reign: nat, voters: seq<nat>) {
    && reign in v.leaderships && reign in v'.leaderships
    && v' == v.(leaderships := v'.leaderships, commitIndex := v'.commitIndex)
    && (voters != [] ==> TryAdvance(v', reign) == v')
    && var o, o' := v.leaderships[reign], v'.leaderships[reign];
       && o'.term == o.term && |o'.next| == |o.next| == |o.matched| == |o'.matched|
       && (forall p | 0 <= p < |o.next| :: o'.matched[p] >= o.matched[p] && (p !in voters ==> o'.next[p] == o.next[p]))
       && (forall x | x in voters :: x < |o.next| && o'.matched[x] >= |v.log|)
  }

  lemma RoundMore(v: Node, v1: Node, reign: nat, front: seq<nat>, x: nat)
    requires RoundOf(v, v1, reign, front) && x !in front && x < |v1.leaderships[reign].next|
    ensures RoundOf(v, Heard(v1, reign, x), reign, front + [x])
  {
    HeardFacts(v1, reign, x);
  }

  lemma StillAsks(s: State, t: State, n: nat, reign: nat, voters: seq<nat>, x: nat)
    requires MayAsk(s, n, reign, x) && x !in voters && |t.nodes| == |s.nodes|
    requires RoundOf(s.nodes[n], t.nodes[n], reign, voters) && t.nodes[x] == s.nodes[x]
    ensures MayAsk(t, n, reign, x)
  {
  }

  lemma {:induction false} Round(states: seq<State>, steps: seq<Step>, s: State, late: set<nat>, n: nat, reign: nat,
                                 voters: seq<nat>)
    returns (states': seq<State>, steps': seq<Step>, t: State)
    requires RunTo(states, steps, s, late, any) && Distinct(voters) && n !in voters
    requires s.Has(n) && reign in s.nodes[n].leaderships
    requires var o := s.nodes[n].leaderships[reign]; |o.next| == |o.matched| == |s.nodes|
    requires forall x | x in voters :: MayAsk(s, n, reign, x)
    ensures RunTo(states', steps', t, late, any) && Continues(states, steps, states', steps')
    ensures |t.nodes| == |s.nodes| && RoundOf(s.nodes[n], t.nodes[n], reign, voters)
    ensures forall i | 0 <= i < |s.nodes| && i != n && i !in voters :: t.nodes[i] == s.nodes[i]
    decreases |voters|
  {
    states', steps', t := states, steps, s;
    if voters != [] {
      var last, front := voters[|voters| - 1], voters[..|voters| - 1];
      assert voters == front + [last] && last !in front && last in voters;
      var s1: State;
      states', steps', s1 := Round(states, steps, s, late, n, reign, front);
      StillAsks(s, s1, n, reign, front, last);
      RoundMore(s.nodes[n], s1.nodes[n], reign, front, last);
      states', steps', t := Exchange(states', steps', s1, late, n, reign, last);
    }
  }

  /** When a quorum has reached the end of the log, all of it is committed. */
  lemma AllReached(s: State, n: nat, q: set<nat>)
    requires Inv(s) && s.Has(n) && s.nodes[n].role.Leader? && s.nodes[n].roleId in s.nodes[n].leaderships
    requires Quorum(q, |s.nodes|)
    requires var o := s.nodes[n].leaderships[s.nodes[n].roleId];
      forall p | p in q :: p < |o.matched| && o.matched[p] >= |s.nodes[n].log|
    ensures TryAdvance(s.nodes[n], s.nodes[n].roleId).commitIndex >= |s.nodes[n].log|
  {
    var v := s.nodes[n];
    MatchedWithin(s, n);
    MajorityReaches(v.leaderships[v.roleId].matched, q, |v.log|);
    EndCommitted(v, v.roleId);
  }

  lemma EndCommitted(v: Node, reign: nat)
    requires reign in v.leaderships && v.log != [] && LastTerm(v.log) == v.currentTerm
    requires v.leaderships[reign].matched != [] && Commitment.Candidate(v.leaderships[reign].matched) == |v.log|
    ensures TryAdvance(v, reign).commitIndex >= |v.log|
  {
  }

  lemma {:induction false} VotedThere(nodes: seq<Node>, voters: seq<nat>, b: Ballot, x: nat)
    requires Distinct(voters) && x in voters && x < |nodes|
    ensures Voted(nodes, voters, b)[x] == HandleRequestVote(nodes[x], b).0
  {
    if voters[|voters| - 1] != x {
      VotedThere(nodes, voters[..|voters| - 1], b, x);
    }
  }

  /** The new leader, with the command behind its no-op. */
  lemma NewLeader(n: nat, voters: seq<nat>, v: Node, size: nat, entry: LogEntry)
    requires n < size && entry.term == v.currentTerm + 1
    ensures var w := Propose(n, Elected(n, voters, v, size), entry); var reign := v.roleId + 2;
      && w.role.Leader? && w.currentTerm == v.currentTerm + 1 && w.roleId == reign && reign in w.leaderships
      && w.log == v.log + [NoOp(v.currentTerm + 1), entry]
      && var o := w.leaderships[reign];
         && o.term == w.currentTerm && |o.next| == |o.matched| == size && o.matched[n] == |w.log|
         && forall p | 0 <= p < size && p != n :: o.next[p] >= 1
  {
    assert v.log + [NoOp(v.currentTerm + 1)] + [entry] == v.log + [NoOp(v.currentTerm + 1), entry];
  }

  lemma ElectedToAsk(s: State, n: nat, voters: seq<nat>, t: State, entry: LogEntry, x: nat)
    requires s.Has(n) && Distinct(voters) && n !in voters && x in voters && entry.term == s.nodes[n].currentTerm + 1
    requires MayVote(s.nodes, BallotOf(n, Opened(n, s.nodes[n])), x) && |t.nodes| == |s.nodes|
    requires t.nodes[n] == Propose(n, Elected(n, voters, s.nodes[n], |s.nodes|), entry)
    requires t.nodes[x] == HandleRequestVote(s.nodes[x], BallotOf(n, Opened(n, s.nodes[n]))).0
    ensures MayAsk(t, n, s.nodes[n].roleId + 2, x)
  {
    NewLeader(n, voters, s.nodes[n], |s.nodes|, entry);
    VoteExact(s.nodes[x], BallotOf(n, Opened(n, s.nodes[n])));
  }

  /** The node is elected and is given the command. */
  lemma ElectAndSubmit(states: seq<State>, steps: seq<Step>, s: State, late: set<nat>, n: nat, voters: seq<nat>,
                       entry: LogEntry)
    returns (states': seq<State>, steps': seq<Step>, t: State)
    requires RunTo(states, steps, s, late, any) && s.Has(n) && !s.nodes[n].role.Leader? && |s.nodes| > 1
    requires n !in voters && Distinct(voters) && |voters| + 1 == Majority(|s.nodes|)
    requires forall x | x in voters :: MayVote(s.nodes, BallotOf(n, Opened(n, s.nodes[n])), x)
    requires entry.term == s.nodes[n].currentTerm + 1
    ensures RunTo(states', steps', t, late, any) && Continues(states, steps, states', steps')
    ensures |t.nodes| == |s.nodes| && t.nodes[n] == Propose(n, Elected(n, voters, s.nodes[n], |s.nodes|), entry)
    ensures forall x | x in voters :: MayAsk(t, n, s.nodes[n].roleId + 2, x)
  {
    var b := BallotOf(n, Opened(n, s.nodes[n]));
    states', steps', t := Elect(states, steps, s, late, any, n, voters);
    states', steps', t := Submits(states', steps', t, late, any, n, entry);
    forall x | x in voters
      ensures MayAsk(t, n, s.nodes[n].roleId + 2, x)
    {
      assert MayVote(s.nodes, b, x);
      VotedThere(s.nodes[n := Opened(n, s.nodes[n])], voters, b, x);
      ElectedToAsk(s, n, voters, t, entry, x);
    }
  }

  lemma VotersQuorum(n: nat, voters: seq<nat>, size: nat)
    requires n !in voters && Distinct(voters) && |voters| + 1 == Majority(size)
    requires n < size && forall x | x in voters :: x < size
    ensures Quorum({n} + Members(voters), size)
  {
    MembersSize(voters);
  }

  lemma RoundReaches(v: Node, v': Node, n: nat, voters: seq<nat>)
    requires RoundOf(v, v', v.roleId, voters) && n < |v.leaderships[v.roleId].matched|
    requires v.leaderships[v.roleId].matched[n] >= |v.log|
    ensures v'.roleId == v.roleId && v'.log == v.log && v'.role == v.role && v'.roleId in v'.leaderships
    ensures var o := v'.leaderships[v'.roleId];
      forall p | p in {n} + Members(voters) :: p < |o.matched| && o.matched[p] >= |v'.log|
  {
    var o, o' := v.leaderships[v.roleId], v'.leaderships[v.roleId];
    assert o'.matched[n] >= o.matched[n];
    assert forall p | p in Members(voters) :: p in voters;
  }

  lemma RoundCommits(v: Node, t: State, n: nat, voters: seq<nat>)
    requires Inv(t) && t.Has(n) && v.role.Leader? && voters != [] && Quorum({n} + Members(voters), |t.nodes|)
    requires RoundOf(v, t.nodes[n], v.roleId, voters) && n < |v.leaderships[v.roleId].matched|
    requires v.leaderships[v.roleId].matched[n] >= |v.log|
    ensures t.nodes[n].commitIndex >= |v.log|
  {
    RoundReaches(v, t.nodes[n], n, voters);
    AllReached(t, n, {n} + Members(voters));
  }

  lemma RoundCommitsRun(states: seq<State>, steps: seq<Step>, v: Node, t: State, n: nat, voters: seq<nat>)
    requires Run(states, steps) && t == states[|steps|]
    requires t.Has(n) && v.role.Leader? && voters != [] && Quorum({n} + Members(voters), |t.nodes|)
    requires RoundOf(v, t.nodes[n], v.roleId, voters) && n < |v.leaderships[v.roleId].matched|
    requires v.leaderships[v.roleId].matched[n] >= |v.log|
    ensures t.nodes[n].commitIndex >= |v.log|
  {
    RunInv(states, steps, |steps|);
    RoundCommits(v, t, n, voters);
  }

  lemma AskedQuorum(s: State, n: nat, voters: seq<nat>)
    requires s.Has(n) && n !in voters && Distinct(voters) && |voters| + 1 == Majority(|s.nodes|)
    requires forall x | x in voters :: MayAsk(s, n, s.nodes[n].roleId, x)
    ensures Quorum({n} + Members(voters), |s.nodes|)
  {
    forall x | x in voters
      ensures x < |s.nodes|
    {
      assert MayAsk(s, n, s.nodes[n].roleId, x);
    }
    VotersQuorum(n, voters, |s.nodes|);
  }

  /** One round of exchanges commits and applies a leader's whole log. */
  lemma CommitRound(states: seq<State>, steps: seq<Step>, s: State, late: set<nat>, n: nat, voters: seq<nat>)
    returns (states': seq<State>, steps': seq<Step>, t: State)
    requires RunTo(states, steps, s, late, any) && Distinct(voters) && n !in voters && s.Has(n)
    requires |voters| + 1 == Majority(|s.nodes|) && voters != []
    requires s.nodes[n].role.Leader? && s.nodes[n].roleId in s.nodes[n].leaderships
    requires var o := s.nodes[n].leaderships[s.nodes[n].roleId];
      |o.next| == |o.matched| == |s.nodes| && o.matched[n] >= |s.nodes[n].log|
    requires forall x | x in voters :: MayAsk(s, n, s.nodes[n].roleId, x)
    ensures RunTo(states', steps', t, late, any) && Continues(states, steps, states', steps') && t.Has(n)
    ensures var v, v' := s.nodes[n], t.nodes[n];
      && v'.role.Leader? && v'.currentTerm == v.currentTerm && v'.log == v.log
      && v'.commitIndex >= |v.log| && v'.lastApplied >= |v.log|
  {
    var s1: State;
    states', steps', s1 := Round(states, steps, s, late, n, s.nodes[n].roleId, voters);
    AskedQuorum(s, n, voters);
    RoundCommitsRun(states', steps', s.nodes[n], s1, n, voters);
    states', steps', t := AppliesAll(states', steps', s1, late, any, n);
  }

  /** Node n leads the term after v's, and its log, v's with the no-op and the command behind it, is committed and
      applied to the end. */
  ghost predicate Committed(t: State, n: nat, v: Node, entry: LogEntry) {
    && t.Has(n) && t.nodes[n].role.Leader? && t.nodes[n].currentTerm == v.currentTerm + 1
    && t.nodes[n].log == v.log + [NoOp(v.currentTerm + 1), entry]
    && t.nodes[n].commitIndex >= |t.nodes[n].log| && t.nodes[n].lastApplied >= |t.nodes[n].log|
  }

  lemma ElectAndCommit(states: seq<State>, steps: seq<Step>, s: State, late: set<nat>, n: nat, voters: seq<nat>,
                       entry: LogEntry)
    returns (states': seq<State>, steps': seq<Step>, t: State)
    requires RunTo(states, steps, s, late, any) && s.Has(n) && !s.nodes[n].role.Leader? && |s.nodes| > 1
    requires n !in voters && Distinct(voters) && |voters| + 1 == Majority(|s.nodes|)
    requires forall x | x in voters :: MayVote(s.nodes, BallotOf(n, Opened(n, s.nodes[n])), x)
    requires entry.term == s.nodes[n].currentTerm + 1
    ensures RunTo(states', steps', t, late, any) && Continues(states, steps, states', steps')
    ensures Committed(t, n, s.nodes[n], entry)
  {
    var s1: State;
    states', steps', s1 := ElectAndSubmit(states, steps, s, late, n, voters, entry);
    NewLeader(n, voters, s.nodes[n], |s.nodes|, entry);
    states', steps', t := CommitRound(states', steps', s1, late, n, voters);
  }

  /** In any run of two nodes or more, at any moment, a node that a quorum has nothing against can come to lead, and
      to commit and apply a command. */
  lemma CanCommit(states: seq<State>, steps: seq<Step>, n: nat, q: set<nat>, entry: LogEntry)
    returns (states': seq<State>, steps': seq<Step>)
    requires Run(states, steps) && Electable(states[|steps|], n, q) && |states[|steps|].nodes| > 1
    requires entry.term == states[|steps|].nodes[n].currentTerm + 1
    ensures Run(states', steps') && states <= states' && steps <= steps'
    ensures Committed(states'[|steps'|], n, states[|steps|].nodes[n], entry)
  {
    var s := states[|steps|];
    AnyRun(states, steps);
    var voters := Others(q, n, Majority(|s.nodes|) - 1);
    var t: State;
    states', steps', t := ElectAndCommit(states, steps, s, SoFar(|steps|), n, voters, entry);
  }
}
