/** State Machine Safety: what nodes commit, and what they feed their state machines, never disagrees. */
module StateMachineSafety {
  import opened Types
  import opened Logs
  import opened Quorums
  import opened Nodes
  import opened Cluster
  import opened Invariants
  import opened Growth
  import opened Preservation
  import opened Safety
  import opened Sessions
  import opened CommitCap

  // ----- commit indexes are backed by chosen entries -----

  /** The leader of the term holds the first c entries of the log. */
  ghost predicate HeldIn(s: State, term: nat, log: Log, c: nat) {
    term in s.leaders && Holds(s.leaders[term].log, log, c)
  }

  /** The first c entries are among those chosen in `term`, and the leaders of all terms before it, back to
      `from`, hold them too: terms that have been won, so nobody else can win them. */
  ghost predicate BackedBy(s: State, log: Log, c: nat, from: nat, term: nat, k: nat) {
    && Chosen(s, term, k) && c <= k && Holds(log, s.leaders[term].log, c)
    && forall u | from <= u < term :: HeldIn(s, u, log, c)
  }

  /** Whoever leads a term from `from` on, now or later, holds the first c entries. */
  ghost predicate Backed(s: State, log: Log, c: nat, from: nat) {
    c == 0 || exists term, k :: BackedBy(s, log, c, from, term, k)
  }

  // ----- the hypothesis on requests -----

  /** The request a step sends. */
  function Request(s: State, step: Step): AppendMsg
    requires Enabled(s, step) && step.SendAppend?
  {
    BuildAppend(step.n, s.nodes[step.n], step.reign, step.peer, step.maxBatch)
  }

  /** The request, a stretch of this log, is covered, and what it says is committed is backed from its own
      term on. */
  ghost predicate CoveredFrom(s: State, m: AppendMsg, log: Log, term: nat, k: nat) {
    BackedBy(s, log, m.leaderCommit, m.term, term, k) && CoversFrom(m, log, Min(term, m.term))
  }

  ghost predicate CoveredBy(s: State, m: AppendMsg, log: Log) {
    m.leaderCommit == 0 || exists term, k :: CoveredFrom(s, m, log, term, k)
  }

  ghost predicate Covered(s: State, step: Step) {
    step.SendAppend? && Enabled(s, step) ==> CoveredBy(s, Request(s, step), s.nodes[step.n].log)
  }

  ghost predicate CoveredRun(states: seq<State>, steps: seq<Step>) {
    && Run(states, steps)
    && forall i | 0 <= i < |steps| :: Timely(states[i], steps[i]) && Covered(states[i], steps[i])
  }

  // ----- what a sender can look up in its own log -----

  /** The request passes the sender's own check. */
  predicate Passes(s: State, step: Step) {
    step.SendAppend? && Enabled(s, step) ==> Checked(Request(s, step), s.nodes[step.n].log)
  }

  /** A term that the log still accounts for was won by a leader that holds the entries. */
  lemma AccountedFor(s: State, log: Log, c: nat, u: nat)
    requires LogOk(log, s.leaders) && c <= |log| && TermAt(log, c) <= u && u in Terms(log)
    ensures HeldIn(s, u, log, c)
  {
    var j := TermHeld(log, c, u);
    assert AnchoredAt(log, j, s.leaders);
    var source := s.leaders[u].log;
    assert source[..c] == source[..j + 1][..c] == log[..j + 1][..c] == log[..c];
  }

  /** What is backed from the sender's term on is backed from an earlier one if the log reaches back to it. */
  lemma ReachesBacked(s: State, log: Log, c: nat, from: nat, term: nat, k: nat, back: nat)
    requires LogOk(log, s.leaders) && BackedBy(s, log, c, from, term, k) && from == LastTerm(log)
    requires ReachesBack(log, c, back)
    ensures BackedBy(s, log, c, back, term, k)
  {
    forall u | back <= u < term
      ensures HeldIn(s, u, log, c)
    {
      if u < from {
        AccountedFor(s, log, c, u);
      }
    }
  }

  /** So a request that passes is covered. */
  lemma PassesCovers(s: State, step: Step)
    requires LeadersInv(s) && LogsInv(s) && Enabled(s, step) && NodeBacked(s, step.n) && Passes(s, step)
    ensures Covered(s, step)
  {
    if step.SendAppend? {
      LeaderLogFacts(s, step.n);
      CheckedCovers(s, Request(s, step), s.nodes[step.n].log, s.nodes[step.n].currentTerm);
    }
  }

  lemma LeaderLogFacts(s: State, n: nat)
    requires LeadersInv(s) && LogsInv(s) && s.Has(n) && s.nodes[n].role.Leader?
    ensures var v := s.nodes[n]; LogOk(v.log, s.leaders) && v.log != [] && LastTerm(v.log) == v.currentTerm
  {
    LeaderHasLog(s, n);
    assert LogOk(s.nodes[n].log, s.leaders) && LeadershipOk(s, s.nodes[n].currentTerm);
  }

  lemma CheckedCovers(s: State, m: AppendMsg, log: Log, from: nat)
    requires LogOk(log, s.leaders) && LastTerm(log) == from && Backed(s, log, m.leaderCommit, from) && Checked(m, log)
    ensures CoveredBy(s, m, log)
  {
    if m.leaderCommit > 0 {
      var term: nat, k: nat :| BackedBy(s, log, m.leaderCommit, from, term, k);
      ReachesBacked(s, log, m.leaderCommit, from, term, k, m.term);
      CoversLower(m, log, m.term, Min(term, m.term));
      assert CoveredFrom(s, m, log, term, k);
    }
  }

  /** The batch limit does not bite: the request carries the leader's whole tail. */
  predicate WholeTail(s: State, step: Step) {
    step.SendAppend? && Enabled(s, step) ==> Request(s, step).LastIndex() == |s.nodes[step.n].log|
  }

  /** Whole tails sent in the sender's own term pass, because no commit index reaches beyond the log. */
  lemma WholeTailPasses(s: State, step: Step)
    requires LeadersInv(s) && LogsInv(s) && Enabled(s, step) && NodeBacked(s, step.n)
    requires WholeTail(s, step) && Current(s, step)
    ensures Passes(s, step)
  {
    if step.SendAppend? {
      var v := s.nodes[step.n];
      BackedBound(s, v.log, v.commitIndex, v.currentTerm);
      LeaderLogFacts(s, step.n);
      OwnTermReaches(v.log, v.commitIndex, v.currentTerm);
    }
  }

  lemma OwnTermReaches(log: Log, c: nat, term: nat)
    requires Sorted(log) && log != [] && LastTerm(log) == term && c <= |log|
    ensures ReachesBack(log, c, term)
  {
    assert log[|log| - 1] in log;
    assert c > 0 ==> log[c - 1].term <= log[|log| - 1].term;
  }

  // ----- what every covered run keeps -----

  ghost predicate NodeBacked(s: State, n: nat)
    requires s.Has(n)
  {
    Backed(s, s.nodes[n].log, s.nodes[n].commitIndex, s.nodes[n].currentTerm)
  }

  /** A request is a stretch of the log of a leader, of its own term or, sent by a superseded object, of a later
      one, or fits nowhere; and it is covered. */
  ghost predicate BackedIn(s: State, m: AppendMsg, t: nat) {
    && m.term <= t && t in s.leaders
    && (Stretch(m, s.leaders[t].log) || (m.prevIndex > 0 && m.prevTerm == 0 && m.entries == []))
    && CoveredBy(s, m, s.leaders[t].log)
  }

  ghost predicate RequestBacked(s: State, m: AppendMsg) {
    exists t :: BackedIn(s, m, t)
  }

  /** A node that has never been rash has fed its state machine the start of its log, all of it backed. */
  ghost predicate FedInOrder(s: State, n: nat)
    requires s.Has(n)
  {
    var v := s.nodes[n];
    !v.rash ==>
      v.lastApplied <= |v.log| && v.applied == v.log[..v.lastApplied] && Backed(s, v.log, v.lastApplied, v.currentTerm)
  }

  ghost predicate NodeOk(s: State, n: nat)
    requires s.Has(n)
  {
    NodeBacked(s, n) && FedInOrder(s, n)
  }

  ghost predicate CommitInv(s: State) {
    && (forall n | 0 <= n < |s.nodes| :: NodeOk(s, n))
    && (forall m | m in s.appends :: RequestBacked(s, m))
  }

  lemma BackedGrows(s: State, s': State, log: Log, log': Log, c: nat, from: nat, from': nat)
    requires Grows(s, s') && Backed(s, log, c, from) && from <= from' && Holds(log', log, c)
    ensures Backed(s', log', c, from')
  {
    if c > 0 {
      var term: nat, k: nat :| BackedBy(s, log, c, from, term, k);
      BackedByGrows(s, s', log, log', c, from, from', term, k);
    }
  }

  lemma BackedByGrows(s: State, s': State, log: Log, log': Log, c: nat, from: nat, from': nat, term: nat, k: nat)
    requires Grows(s, s') && BackedBy(s, log, c, from, term, k) && from <= from' && Holds(log', log, c)
    ensures BackedBy(s', log', c, from', term, k)
  {
    ChosenGrows(s, s', term, k);
    assert log'[..c] == log[..c] == s.leaders[term].log[..c] == s'.leaders[term].log[..c];
    forall u | from' <= u < term
      ensures HeldIn(s', u, log', c)
    {
      assert HeldIn(s, u, log, c);
      assert s'.leaders[u].log[..c] == s.leaders[u].log[..c] == log[..c] == log'[..c];
    }
  }

  lemma BackedBound(s: State, log: Log, c: nat, from: nat)
    requires Backed(s, log, c, from)
    ensures c <= |log| && Holds(log, log, c)
  {
  }

  lemma BackedLess(s: State, log: Log, c: nat, d: nat, from: nat)
    requires Backed(s, log, d, from) && c <= d
    ensures Backed(s, log, c, from)
  {
    if c > 0 {
      var term: nat, k: nat :| BackedBy(s, log, d, from, term, k);
      HoldsLess(log, s.leaders[term].log, c, d);
      forall u | from <= u < term
        ensures HeldIn(s, u, log, c)
      {
        assert HeldIn(s, u, log, d);
        HoldsLess(s.leaders[u].log, log, c, d);
      }
      assert BackedBy(s, log, c, from, term, k);
    }
  }

  lemma HoldsLess(a: Log, b: Log, c: nat, d: nat)
    requires Holds(a, b, d) && c <= d
    ensures Holds(a, b, c)
  {
    assert a[..c] == a[..d][..c] == b[..d][..c] == b[..c];
  }

  // ----- taking a request keeps what is committed and commits only what is chosen -----

  lemma HoldsVia(log: Log, leader: Log, after: Log, c: nat, k: nat)
    requires Holds(log, leader, c) && Holds(after, leader, k) && c <= k
    ensures Holds(log, after, c)
  {
    assert log[..c] == leader[..c] == leader[..k][..c] == after[..k][..c] == after[..c];
  }

  lemma BackedByHeld(s: State, log: Log, c: nat, from: nat, later: nat, term: nat, k: nat)
    requires LeadersInv(s) && LogsInv(s) && RemembersInv(s) && BackedBy(s, log, c, from, term, k)
    requires later in s.leaders && Min(term, from) <= later
    ensures Holds(log, s.leaders[later].log, c)
  {
    if term <= later {
      ChosenHeld(s, term, k, later);
      HoldsVia(log, s.leaders[term].log, s.leaders[later].log, c, k);
    } else {
      assert HeldIn(s, later, log, c);
    }
  }

  lemma Backing(s: State, log: Log, c: nat, from: nat) returns (term: nat, k: nat)
    requires Backed(s, log, c, from) && c > 0
    ensures BackedBy(s, log, c, from, term, k)
  {
    term, k :| BackedBy(s, log, c, from, term, k);
  }

  /** A follower's committed prefix is a prefix of every current or later leader's log. */
  lemma BackedHeld(s: State, log: Log, c: nat, from: nat, later: nat)
    requires LeadersInv(s) && LogsInv(s) && RemembersInv(s)
    requires Backed(s, log, c, from) && later in s.leaders && from <= later
    ensures Holds(log, s.leaders[later].log, c)
  {
    if c > 0 {
      var term, k := Backing(s, log, c, from);
      BackedByHeld(s, log, c, from, later, term, k);
    }
  }

  /** The request is a stretch of the log it was sent from, and the taker's log has the same origin. */
  lemma TakeOwnStretch(s: State, n: nat, m: AppendMsg, t: nat)
    requires LeadersInv(s) && LogsInv(s) && MayTake(s, n, m) && BackedIn(s, m, t)
    ensures Stretch(m, s.leaders[t].log) && CommonOrigin(s.nodes[n].log, s.leaders[t].log)
    ensures Sorted(s.nodes[n].log) && Positive(s.nodes[n].log) && Sorted(s.leaders[t].log)
  {
    var log := s.nodes[n].log;
    assert LogOk(log, s.leaders) && LogOk(s.leaders[t].log, s.leaders);
    AnchoredOrigin(log, s.leaders[t].log, s.leaders);
    AnchoredPositive(s, log);
  }

  /** No node truncates its log at or below an index that is backed, such as its commit index. */
  lemma TakeKeepsBacked(s: State, n: nat, m: AppendMsg, c: nat)
    requires Inv(s) && MayTake(s, n, m) && RequestBacked(s, m) && Backed(s, s.nodes[n].log, c, s.nodes[n].currentTerm)
    ensures Holds(Take(s, n, m).nodes[n].log, s.nodes[n].log, c)
  {
    var t :| BackedIn(s, m, t);
    var log, leader := s.nodes[n].log, s.leaders[t].log;
    TakeOwnStretch(s, n, m, t);
    OriginMatches(log, leader);
    var cut := AfterShape(log, m, leader);
    BackedHeld(s, log, c, s.nodes[n].currentTerm, t);
    BackedBound(s, log, c, s.nodes[n].currentTerm);
    if Append(log, m.prevIndex, m.entries) != log {
      TakeKeeps(log, leader, leader, c, m.LastIndex(), cut);
      assert leader[..m.LastIndex()][..c] == leader[..c] == log[..c];
    }
  }

  lemma SlicesAgree(log: Log, source: Log, leader: Log, i: nat, c: nat)
    requires i < |log| && i < |source| && log[..i + 1] == source[..i + 1] && Holds(leader, source, c)
    ensures Holds(log, leader, Min(i + 1, c))
  {
    var e := Min(i + 1, c);
    assert log[..e] == log[..i + 1][..e] == source[..i + 1][..e] == source[..e];
    assert leader[..e] == leader[..c][..e] == source[..c][..e] == source[..e];
  }

  lemma EntrySource(s: State, n: nat, i: nat)
    requires LogsInv(s) && s.Has(n) && i < |s.nodes[n].log|
    ensures AnchoredAt(s.nodes[n].log, i, s.leaders)
  {
    assert LogOk(s.nodes[n].log, s.leaders);
  }

  /** A follower's entries of terms from which on something is backed agree with it. */
  lemma AgreesFrom(s: State, n: nat, leader: Log, c: nat, from: nat, term: nat, k: nat, i: nat)
    requires LeadersInv(s) && LogsInv(s) && RemembersInv(s) && s.Has(n) && i < |s.nodes[n].log|
    requires BackedBy(s, leader, c, from, term, k) && s.nodes[n].log[i].term >= Min(term, from)
    ensures Holds(s.nodes[n].log, leader, Min(i + 1, c))
  {
    var log := s.nodes[n].log;
    EntrySource(s, n, i);
    BackedByHeld(s, leader, c, from, log[i].term, term, k);
    SlicesAgree(log, s.leaders[log[i].term].log, leader, i, c);
  }

  /** In the cluster, too, a covered request makes the cap at the follower's own last index sound. */
  lemma TakeCapHolds(s: State, n: nat, m: AppendMsg, t: nat)
    requires LeadersInv(s) && LogsInv(s) && RemembersInv(s) && MayTake(s, n, m) && BackedIn(s, m, t)
    ensures var log' := Take(s, n, m).nodes[n].log; Holds(log', s.leaders[t].log, Min(m.leaderCommit, |log'|))
  {
    var log, leader := s.nodes[n].log, s.leaders[t].log;
    TakeOwnStretch(s, n, m, t);
    if m.leaderCommit > 0 {
      var term: nat, k: nat :| CoveredFrom(s, m, leader, term, k);
      forall i | 0 <= i < |log| && log[i].term >= Min(term, m.term)
        ensures Holds(log, leader, Min(i + 1, m.leaderCommit))
      {
        AgreesFrom(s, n, leader, m.leaderCommit, m.term, term, k, i);
      }
      CapHolds(log, m, leader, Min(term, m.term));
    }
  }

  lemma RequestCommitBacked(s: State, m: AppendMsg, log: Log)
    requires CoveredBy(s, m, log)
    ensures Backed(s, log, m.leaderCommit, m.term)
  {
    if m.leaderCommit > 0 {
      var term: nat, k: nat :| CoveredFrom(s, m, log, term, k);
      assert BackedBy(s, log, m.leaderCommit, m.term, term, k);
    }
  }

  lemma TakeCommitBacked(s: State, n: nat, m: AppendMsg)
    requires Inv(s) && MayTake(s, n, m) && RequestBacked(s, m)
    ensures var s' := Take(s, n, m); var log' := s'.nodes[n].log;
      Grows(s, s') && Backed(s', log', Min(m.leaderCommit, |log'|), m.term)
  {
    var t :| BackedIn(s, m, t);
    TakeGrows(s, n, m);
    TakeCapHolds(s, n, m, t);
    CapBacked(s, Take(s, n, m), m, s.leaders[t].log, Take(s, n, m).nodes[n].log);
  }

  lemma CapBacked(s: State, s': State, m: AppendMsg, leader: Log, log: Log)
    requires Grows(s, s') && CoveredBy(s, m, leader) && Holds(log, leader, Min(m.leaderCommit, |log|))
    ensures Backed(s', log, Min(m.leaderCommit, |log|), m.term)
  {
    var c := Min(m.leaderCommit, |log|);
    RequestCommitBacked(s, m, leader);
    BackedLess(s, leader, c, m.leaderCommit, m.term);
    BackedGrows(s, s', leader, log, c, m.term, m.term);
  }

  // ----- every step -----

  /** An accepted request, taken apart: the node joins the sender's term, takes the entries, commits and applies. */
  lemma AcceptFields(s: State, n: nat, m: AppendMsg)
    requires s.Has(n) && m in s.appends && m.to == n && HandleAppend(n, s.nodes[n], m).1
    ensures var f := Receive(s.nodes[n], m); var s1 := s.With(n, f);
      && MayTake(s1, n, m) && f.log == s.nodes[n].log && f.commitIndex == s.nodes[n].commitIndex
      && f.currentTerm == m.term && s.nodes[n].currentTerm <= m.term
      && Deliver(s, n, m).nodes[n] == ApplyCommitted(RaiseCommit(Take(s1, n, m).nodes[n], m.leaderCommit))
  {
    ReceiveLocal(s.nodes[n], m);
    DeliverIsTake(s, n, m);
  }

  lemma AcceptJoins(s: State, n: nat, m: AppendMsg)
    requires Inv(s) && s.Has(n) && m in s.appends && m.to == n && HandleAppend(n, s.nodes[n], m).1
    requires RequestBacked(s, m)
    ensures var s1 := s.With(n, Receive(s.nodes[n], m)); Inv(s1) && Grows(s, s1) && RequestBacked(s1, m)
  {
    var f := Receive(s.nodes[n], m);
    ReceiveLocal(s.nodes[n], m);
    LocalInv(s, n, f);
    OldRequestBacked(s, s.With(n, f), m);
  }

  lemma AcceptEnds(s: State, n: nat, m: AppendMsg)
    requires s.Has(n) && m in s.appends && m.to == n && HandleAppend(n, s.nodes[n], m).1
    ensures var s1 := s.With(n, Receive(s.nodes[n], m));
      m.prevIndex <= |s1.nodes[n].log| && Grows(Take(s1, n, m), Deliver(s, n, m))
  {
    ReceiveLocal(s.nodes[n], m);
    DeliverIsTake(s, n, m);
    CommitAndApplyIndex(Take(s.With(n, Receive(s.nodes[n], m)), n, m).nodes[n], m.leaderCommit);
  }

  lemma OldRequestBacked(s: State, s': State, m: AppendMsg)
    requires Grows(s, s') && RequestBacked(s, m)
    ensures RequestBacked(s', m)
  {
    var t :| BackedIn(s, m, t);
    var log, log' := s.leaders[t].log, s'.leaders[t].log;
    if Stretch(m, log) {
      assert log'[m.prevIndex..m.LastIndex()] == log[m.prevIndex..m.LastIndex()];
    }
    if m.leaderCommit > 0 {
      var term: nat, k: nat :| CoveredFrom(s, m, log, term, k);
      CoveredGrows(s, s', m, log, log', term, k);
    }
    assert BackedIn(s', m, t);
  }

  lemma CoveredGrows(s: State, s': State, m: AppendMsg, log: Log, log': Log, term: nat, k: nat)
    requires Grows(s, s') && log <= log' && CoveredFrom(s, m, log, term, k)
    ensures CoveredFrom(s', m, log', term, k)
  {
    var c := m.leaderCommit;
    assert log'[..c] == log[..c];
    BackedByGrows(s, s', log, log', c, m.term, m.term, term, k);
    CoversGrow(m, log, log', Min(term, m.term));
  }

  lemma CommitAndApplyIndex(v: Node, commitIndex: nat)
    ensures var v' := ApplyCommitted(RaiseCommit(v, commitIndex));
      && v'.log == v.log && v'.currentTerm == v.currentTerm && v'.commitIndex >= v.commitIndex
      && v'.commitIndex in {v.commitIndex, Min(commitIndex, |v.log|)}
  {
  }

  lemma AcceptKeeps(s: State, n: nat, m: AppendMsg, c: nat)
    requires Inv(s) && s.Has(n) && m in s.appends && m.to == n && HandleAppend(n, s.nodes[n], m).1
    requires RequestBacked(s, m)
    requires Backed(s, s.nodes[n].log, c, s.nodes[n].currentTerm)
    ensures var v' := Deliver(s, n, m).nodes[n];
      Holds(v'.log, s.nodes[n].log, c) && v'.currentTerm == m.term >= s.nodes[n].currentTerm
  {
    AcceptFields(s, n, m);
    AcceptJoins(s, n, m);
    var v := s.nodes[n];
    var s1 := s.With(n, Receive(v, m));
    BackedBound(s, v.log, c, v.currentTerm);
    BackedGrows(s, s1, v.log, v.log, c, v.currentTerm, m.term);
    TakeKeepsBacked(s1, n, m, c);
    CommitAndApplyIndex(Take(s1, n, m).nodes[n], m.leaderCommit);
  }

  lemma AcceptCommits(s: State, n: nat, m: AppendMsg)
    requires Inv(s) && s.Has(n) && m in s.appends && m.to == n && HandleAppend(n, s.nodes[n], m).1
    requires RequestBacked(s, m)
    ensures var s' := Deliver(s, n, m); var v' := s'.nodes[n];
      && v'.commitIndex >= s.nodes[n].commitIndex
      && (v'.commitIndex == s.nodes[n].commitIndex || Backed(s', v'.log, v'.commitIndex, v'.currentTerm))
  {
    AcceptFields(s, n, m);
    AcceptJoins(s, n, m);
    AcceptEnds(s, n, m);
    var s1 := s.With(n, Receive(s.nodes[n], m));
    var s2 := Take(s1, n, m);
    TakeCommitBacked(s1, n, m);
    CommitAndApplyIndex(s2.nodes[n], m.leaderCommit);
    var v' := Deliver(s, n, m).nodes[n];
    if v'.commitIndex != s.nodes[n].commitIndex {
      BackedGrows(s2, Deliver(s, n, m), v'.log, v'.log, v'.commitIndex, m.term, m.term);
    }
  }

  lemma RefusedKind(id: nat, v: Node, m: AppendMsg)
    requires !HandleAppend(id, v, m).1
    ensures var v' := HandleAppend(id, v, m).0; v'.log == v.log && v'.commitIndex == v.commitIndex
  {
  }

  lemma VoterKind(v: Node, b: Ballot)
    ensures var v' := HandleRequestVote(v, b).0; v'.log == v.log && v'.commitIndex == v.commitIndex
  {
  }

  predicate KeptOrLed(v: Node, v': Node, crash: bool) {
    && v.log <= v'.log && (v'.log == v.log || v'.role.Leader?)
    && (crash || v'.commitIndex >= v.commitIndex)
    && (v'.commitIndex == v.commitIndex || v'.commitIndex == 0 || v'.role.Leader?)
  }

  /** Everything but an accepted request either leaves the log and the commit index alone, or is a leader's
      append or commit, or a crash. */
  lemma StepKinds(s: State, step: Step)
    requires Enabled(s, step)
    requires step.DeliverAppend? ==> !HandleAppend(step.n, s.nodes[step.n], step.msg).1
    ensures var s' := Next(s, step);
      && s'.nodes == s.nodes[step.n := s'.nodes[step.n]]
      && KeptOrLed(s.nodes[step.n], s'.nodes[step.n], step.Crash? || step.CrashInElection?)
  {
    var n := step.n;
    match step
    case BeginElection(_) =>
      var s1 := Open(s, n);
      MaybeWinKind(s1, n, BallotOf(n, s1.nodes[n]));
    case DeliverVote(_, vote) => MaybeWinKind(CountVote(s, n, vote), n, vote.ballot);
    case DeliverSuccess(_, m) => TryCommitKind(Succeed(s, n, m), n, m.reign);
    case DeliverVoteRequest(_, b) => VoterKind(s.nodes[n], b);
    case DeliverAppend(_, m) => RefusedKind(n, s.nodes[n], m);
    case _ => PlainKind(s, step);
  }

  lemma PlainKind(s: State, step: Step)
    requires Enabled(s, step) && !step.BeginElection? && !step.DeliverVote? && !step.DeliverSuccess?
    requires !step.DeliverVoteRequest? && !step.DeliverAppend?
    ensures var s' := Next(s, step);
      && s'.nodes == s.nodes[step.n := s'.nodes[step.n]]
      && KeptOrLed(s.nodes[step.n], s'.nodes[step.n], step.Crash? || step.CrashInElection?)
  {
  }

  lemma TryCommitKind(s: State, n: nat, reign: nat)
    requires s.Has(n) && reign in s.nodes[n].leaderships
    ensures var s' := TryCommit(s, n, reign); var v := s.nodes[n]; var v' := s'.nodes[n];
      s'.nodes == s.nodes[n := v'] && v'.log == v.log && v'.role == v.role && v'.commitIndex >= v.commitIndex
  {
  }

  lemma MaybeWinKind(s: State, n: nat, b: Ballot)
    requires s.Has(n)
    ensures var s' := MaybeWin(s, n, b); var v := s.nodes[n]; var v' := s'.nodes[n];
      && s'.nodes == s.nodes[n := v'] && v.log <= v'.log && v'.commitIndex >= v.commitIndex
      && (v'.role.Leader? || (v'.log == v.log && v'.commitIndex == v.commitIndex))
  {
    if |s.nodes[n].counted| >= Majority(|s.nodes|) {
      var s1 := Enter(s, n, b);
      TryCommitKind(s1, n, s1.nodes[n].roleId);
    }
  }

  lemma NodesElsewhere(s: State, step: Step)
    requires Enabled(s, step)
    ensures Next(s, step).nodes == s.nodes[step.n := Next(s, step).nodes[step.n]]
  {
    if !step.DeliverAppend? {
      StepKinds(s, step);
    }
  }

  /** Is the step an accepted request? */
  predicate Accepts(s: State, step: Step)
    requires Enabled(s, step)
  {
    step.DeliverAppend? && HandleAppend(step.n, s.nodes[step.n], step.msg).1
  }

  lemma StepOnlyGrows(s: State, step: Step)
    requires Inv(s) && Enabled(s, step)
    ensures Grows(s, Next(s, step))
  {
    StepInv(s, step);
  }

  lemma StepLogGrows(s: State, step: Step)
    requires Enabled(s, step) && !Accepts(s, step)
    ensures Next(s, step).Has(step.n) && s.nodes[step.n].log <= Next(s, step).nodes[step.n].log
  {
    StepKinds(s, step);
  }

  /** A step keeps the start of the node's log that is backed. */
  lemma StepKeeps(s: State, step: Step, c: nat)
    requires Inv(s) && Enabled(s, step) && (Accepts(s, step) ==> RequestBacked(s, step.msg))
    requires Backed(s, s.nodes[step.n].log, c, s.nodes[step.n].currentTerm)
    ensures Next(s, step).Has(step.n) && Holds(Next(s, step).nodes[step.n].log, s.nodes[step.n].log, c)
  {
    BackedBound(s, s.nodes[step.n].log, c, s.nodes[step.n].currentTerm);
    if Accepts(s, step) {
      AcceptKeeps(s, step.n, step.msg, c);
      AcceptIs(s, step);
    } else {
      StepLogGrows(s, step);
      LongerHolds(Next(s, step).nodes[step.n].log, s.nodes[step.n].log, c);
    }
  }

  lemma LongerHolds(longer: Log, log: Log, c: nat)
    requires log <= longer && c <= |log|
    ensures Holds(longer, log, c)
  {
    assert longer[..c] == longer[..|log|][..c];
  }

  lemma AcceptIs(s: State, step: Step)
    requires Enabled(s, step) && Accepts(s, step)
    ensures s.Has(step.n) && Next(s, step) == Deliver(s, step.n, step.msg)
  {
  }

  /** It stays backed, too. */
  lemma StepKeepsBacked(s: State, step: Step, c: nat)
    requires Inv(s) && Enabled(s, step) && (Accepts(s, step) ==> RequestBacked(s, step.msg))
    requires Backed(s, s.nodes[step.n].log, c, s.nodes[step.n].currentTerm)
    ensures var s' := Next(s, step); var v := s.nodes[step.n]; var v' := s'.nodes[step.n];
      Holds(v'.log, v.log, c) && Backed(s', v'.log, c, v'.currentTerm)
  {
    StepKeeps(s, step, c);
    StepOnlyGrows(s, step);
    var s' := Next(s, step);
    var v, v' := s.nodes[step.n], s'.nodes[step.n];
    BackedGrows(s, s', v.log, v'.log, c, v.currentTerm, v'.currentTerm);
  }

  lemma LeaderCommitBacked(s: State, n: nat)
    requires LeadersInv(s) && s.Has(n) && s.nodes[n].role.Leader?
    requires Chosen(s, s.nodes[n].currentTerm, s.nodes[n].commitIndex)
    ensures NodeBacked(s, n)
  {
    var v := s.nodes[n];
    LeaderHasLog(s, n);
    assert BackedBy(s, v.log, v.commitIndex, v.currentTerm, v.currentTerm, v.commitIndex);
  }

  lemma RaisedBacked(s: State, step: Step)
    requires Inv(s) && Enabled(s, step) && Timely(s, step) && !Accepts(s, step)
    requires Next(s, step).nodes[step.n].commitIndex > s.nodes[step.n].commitIndex
    ensures NodeBacked(Next(s, step), step.n)
  {
    StepKinds(s, step);
    StepInv(s, step);
    LeaderCommitChosen(s, step, step.n);
    LeaderCommitBacked(Next(s, step), step.n);
  }

  /** A step keeps the commit index backed and, but for a crash, no lower. */
  lemma StepNodeBacked(s: State, step: Step)
    requires Inv(s) && Enabled(s, step) && Timely(s, step) && (Accepts(s, step) ==> RequestBacked(s, step.msg))
    requires NodeBacked(s, step.n)
    ensures Next(s, step).Has(step.n) && NodeBacked(Next(s, step), step.n)
    ensures step.Crash? || step.CrashInElection? ||
            Next(s, step).nodes[step.n].commitIndex >= s.nodes[step.n].commitIndex
  {
    var n := step.n;
    StepKeepsBacked(s, step, s.nodes[n].commitIndex);
    if Accepts(s, step) {
      AcceptCommits(s, n, step.msg);
    } else {
      StepKinds(s, step);
      if Next(s, step).nodes[n].commitIndex > s.nodes[n].commitIndex {
        RaisedBacked(s, step);
      }
    }
  }

  // ----- what the state machines are fed -----

  /** A change that is no crash applies nothing, or everything up to the commit index. */
  predicate Applies(v: Node, v': Node) {
    v'.rash == v.rash &&
    (|| (v'.lastApplied == v.lastApplied && v'.applied == v.applied)
     || (v.lastApplied < v'.lastApplied == Min(v'.commitIndex, |v'.log|) &&
         v'.applied == v.applied + v'.log[v.lastApplied..v'.lastApplied]))
  }

  lemma TryCommitApplies(s: State, n: nat, reign: nat)
    requires s.Has(n) && reign in s.nodes[n].leaderships
    ensures Applies(s.nodes[n], TryCommit(s, n, reign).nodes[n])
  {
  }

  lemma MaybeWinApplies(s: State, n: nat, b: Ballot)
    requires s.Has(n)
    ensures MaybeWin(s, n, b).Has(n) && Applies(s.nodes[n], MaybeWin(s, n, b).nodes[n])
  {
    if |s.nodes[n].counted| >= Majority(|s.nodes|) {
      var s1 := Enter(s, n, b);
      TryCommitApplies(s1, n, s1.nodes[n].roleId);
    }
  }

  lemma VoteApplies(v: Node, b: Ballot)
    ensures Applies(v, HandleRequestVote(v, b).0)
  {
  }

  lemma AppendApplies(id: nat, v: Node, m: AppendMsg)
    ensures Applies(v, HandleAppend(id, v, m).0)
  {
  }

  lemma StepApplies(s: State, step: Step)
    requires Enabled(s, step) && !step.Crash? && !step.CrashInElection?
    ensures Next(s, step).Has(step.n) && Applies(s.nodes[step.n], Next(s, step).nodes[step.n])
  {
    var n := step.n;
    match step
    case BeginElection(_) =>
      var s1 := Open(s, n);
      MaybeWinApplies(s1, n, BallotOf(n, s1.nodes[n]));
    case DeliverVote(_, vote) => MaybeWinApplies(CountVote(s, n, vote), n, vote.ballot);
    case DeliverSuccess(_, m) => TryCommitApplies(Succeed(s, n, m), n, m.reign);
    case DeliverVoteRequest(_, b) => VoteApplies(s.nodes[n], b);
    case DeliverAppend(_, m) => AppendApplies(n, s.nodes[n], m);
    case Submit(_, entry) =>
    case _ =>
  }

  lemma AppliedPrefix(v: Node, v': Node)
    requires Applies(v, v') && v.lastApplied <= |v.log| && v.applied == v.log[..v.lastApplied]
    requires Holds(v'.log, v.log, v.lastApplied)
    ensures v'.lastApplied <= |v'.log| && v'.applied == v'.log[..v'.lastApplied]
  {
    assert v'.log[..v.lastApplied] == v.log[..v.lastApplied];
  }

  lemma StepFed(s: State, step: Step)
    requires Inv(s) && Enabled(s, step) && (Accepts(s, step) ==> RequestBacked(s, step.msg))
    requires FedInOrder(s, step.n) && !step.Crash? && !step.CrashInElection?
    requires Next(s, step).Has(step.n) && NodeBacked(Next(s, step), step.n)
    ensures FedInOrder(Next(s, step), step.n)
  {
    var n := step.n;
    var v, v' := s.nodes[n], Next(s, step).nodes[n];
    StepApplies(s, step);
    if !v.rash {
      StepKeepsBacked(s, step, v.lastApplied);
      AppliedPrefix(v, v');
      if v'.lastApplied != v.lastApplied {
        BackedLess(Next(s, step), v'.log, v'.lastApplied, v'.commitIndex, v'.currentTerm);
      }
    }
  }

  lemma CrashNode(s: State, step: Step)
    requires Enabled(s, step) && (step.Crash? || step.CrashInElection?)
    ensures Next(s, step).Has(step.n)
    ensures var v, v' := s.nodes[step.n], Next(s, step).nodes[step.n];
      && v'.log == v'.applied == v.log && v'.lastApplied == |v.log| && v'.currentTerm >= v.currentTerm
      && (v'.rash <==> v.rash || (v.commitIndex < |v.log| && v.lastApplied < |v.log|))
  {
  }

  /** A node whose log was known to be committed in full, or had been applied in full, when it crashed has not
      been rash. */
  lemma CrashFed(s: State, step: Step)
    requires Inv(s) && Enabled(s, step) && (step.Crash? || step.CrashInElection?) && NodeOk(s, step.n)
    ensures Next(s, step).Has(step.n) && FedInOrder(Next(s, step), step.n)
  {
    CrashNode(s, step);
    if !Next(s, step).nodes[step.n].rash {
      StepOnlyGrows(s, step);
      WholeBacked(s, Next(s, step), step.n);
      ReplayFed(Next(s, step), step.n, s.nodes[step.n].log);
    }
  }

  lemma WholeBacked(s: State, s': State, n: nat)
    requires s.Has(n) && s'.Has(n) && Grows(s, s') && s.nodes[n].currentTerm <= s'.nodes[n].currentTerm
    requires NodeOk(s, n) && !s.nodes[n].rash
    requires s.nodes[n].commitIndex >= |s.nodes[n].log| || s.nodes[n].lastApplied >= |s.nodes[n].log|
    ensures var log := s.nodes[n].log; Backed(s', log, |log|, s'.nodes[n].currentTerm)
  {
    var v := s.nodes[n];
    BackedBound(s, v.log, v.commitIndex, v.currentTerm);
    BackedGrows(s, s', v.log, v.log, |v.log|, v.currentTerm, s'.nodes[n].currentTerm);
  }

  lemma ReplayFed(s: State, n: nat, log: Log)
    requires s.Has(n) && Backed(s, log, |log|, s.nodes[n].currentTerm)
    requires s.nodes[n].applied == s.nodes[n].log == log && s.nodes[n].lastApplied == |log|
    ensures FedInOrder(s, n)
  {
    assert log[..|log|] == log;
  }

  lemma StepNodeOk(s: State, step: Step)
    requires Inv(s) && Enabled(s, step) && Timely(s, step) && (Accepts(s, step) ==> RequestBacked(s, step.msg))
    requires NodeOk(s, step.n)
    ensures Next(s, step).Has(step.n) && NodeOk(Next(s, step), step.n)
  {
    StepNodeBacked(s, step);
    if step.Crash? || step.CrashInElection? {
      CrashFed(s, step);
    } else {
      StepFed(s, step);
    }
  }

  // ----- requests -----

  lemma NewRequest(s: State, step: Step, m: AppendMsg)
    requires Enabled(s, step) && m in Next(s, step).appends && m !in s.appends
    ensures step.SendAppend? && m == Request(s, step)
    ensures Next(s, step).leaders == s.leaders && Next(s, step).acks == s.acks && Next(s, step).nodes == s.nodes
  {
    match step
    case BeginElection(_) =>
    case DeliverVote(_, _) =>
    case _ =>
  }

  lemma NewRequestBacked(s: State, step: Step)
    requires LeadersInv(s) && BooksInv(s) && Enabled(s, step) && step.SendAppend? && Covered(s, step)
    ensures RequestBacked(s, Request(s, step))
  {
    var v := s.nodes[step.n];
    assert BookOk(s, step.n, step.reign);
    BuiltOk(s, step.n, step.reign, step.peer, step.maxBatch);
    assert BackedIn(s, Request(s, step), v.currentTerm);
  }

  lemma StepRequestsBacked(s: State, step: Step)
    requires Inv(s) && Enabled(s, step) && Covered(s, step)
    requires forall m | m in s.appends :: RequestBacked(s, m)
    ensures forall m | m in Next(s, step).appends :: RequestBacked(Next(s, step), m)
  {
    StepOnlyGrows(s, step);
    forall m | m in Next(s, step).appends ensures RequestBacked(Next(s, step), m) {
      if m !in s.appends {
        NewRequest(s, step, m);
        NewRequestBacked(s, step);
      }
      OldRequestBacked(s, Next(s, step), m);
    }
  }

  lemma NodeStillOk(s: State, s': State, i: nat)
    requires Grows(s, s') && s.Has(i) && s'.Has(i) && s'.nodes[i] == s.nodes[i] && NodeOk(s, i)
    ensures NodeOk(s', i)
  {
    var v := s.nodes[i];
    BackedBound(s, v.log, v.commitIndex, v.currentTerm);
    BackedGrows(s, s', v.log, v.log, v.commitIndex, v.currentTerm, v.currentTerm);
    if !v.rash {
      BackedGrows(s, s', v.log, v.log, v.lastApplied, v.currentTerm, v.currentTerm);
    }
  }

  lemma OthersStillOk(s: State, s': State, n: nat)
    requires Grows(s, s') && s.Has(n) && s'.nodes == s.nodes[n := s'.nodes[n]] && NodeOk(s', n)
    requires forall i | 0 <= i < |s.nodes| :: NodeOk(s, i)
    ensures forall i | 0 <= i < |s'.nodes| :: NodeOk(s', i)
  {
    forall i | 0 <= i < |s'.nodes| ensures NodeOk(s', i) {
      if i != n {
        NodeStillOk(s, s', i);
      }
    }
  }

  /** Every step of a covered run keeps every node's commit index, and everything it has applied, backed,
      and every request sent covered. */
  lemma StepCommitInv(s: State, step: Step)
    requires Inv(s) && CommitInv(s) && Enabled(s, step) && Timely(s, step) && Covered(s, step)
    ensures CommitInv(Next(s, step))
  {
    assert Accepts(s, step) ==> RequestBacked(s, step.msg);
    StepNodeOk(s, step);
    StepRequestsBacked(s, step);
    StepOnlyGrows(s, step);
    NodesElsewhere(s, step);
    OthersStillOk(s, Next(s, step), step.n);
  }

  lemma {:induction false} RunCommitInv(states: seq<State>, steps: seq<Step>, i: nat)
    requires CoveredRun(states, steps) && i < |states|
    ensures Inv(states[i]) && CommitInv(states[i])
  {
    RunInv(states, steps, i);
    if i > 0 {
      RunCommitInv(states, steps, i - 1);
      StepCommitInv(states[i - 1], steps[i - 1]);
    }
  }

  /** A run of timely steps in which every request passes its sender's own check is covered. */
  lemma {:induction false} CheckedRun(states: seq<State>, steps: seq<Step>, k: nat)
    requires Run(states, steps) && k <= |steps|
    requires forall i | 0 <= i < |steps| :: Timely(states[i], steps[i]) && Passes(states[i], steps[i])
    ensures Inv(states[k]) && CommitInv(states[k]) && forall i | 0 <= i < k :: Covered(states[i], steps[i])
  {
    RunInv(states, steps, k);
    if k > 0 {
      CheckedRun(states, steps, k - 1);
      assert NodeOk(states[k - 1], steps[k - 1].n);
      PassesCovers(states[k - 1], steps[k - 1]);
      StepCommitInv(states[k - 1], steps[k - 1]);
    }
  }

  /** So is a run of timely steps in which every request is sent in its sender's own term and carries its whole
      tail. */
  lemma {:induction false} WholeTailRun(states: seq<State>, steps: seq<Step>, k: nat)
    requires Run(states, steps) && k <= |steps|
    requires forall i | 0 <= i < |steps| ::
      Timely(states[i], steps[i]) && Current(states[i], steps[i]) && WholeTail(states[i], steps[i])
    ensures Inv(states[k]) && CommitInv(states[k]) && forall i | 0 <= i < k :: Covered(states[i], steps[i])
  {
    RunInv(states, steps, k);
    if k > 0 {
      WholeTailRun(states, steps, k - 1);
      assert NodeOk(states[k - 1], steps[k - 1].n);
      WholeTailPasses(states[k - 1], steps[k - 1]);
      PassesCovers(states[k - 1], steps[k - 1]);
      StepCommitInv(states[k - 1], steps[k - 1]);
    }
  }

  // ----- the theorems -----

  lemma BothHold(a: Log, b: Log, leader: Log, c: nat)
    requires Holds(a, leader, c) && Holds(b, leader, c)
    ensures Holds(a, b, c) && Holds(b, a, c)
  {
  }

  lemma BackedByAgree(s: State, a: Log, b: Log, c: nat, fromA: nat, fromB: nat, t: nat, k: nat, t': nat, k': nat)
    requires LeadersInv(s) && LogsInv(s) && RemembersInv(s) && t <= t'
    requires BackedBy(s, a, c, fromA, t, k) && BackedBy(s, b, c, fromB, t', k')
    ensures Holds(a, b, c) && Holds(b, a, c)
  {
    BackedByHeld(s, a, c, fromA, t', t, k);
    BothHold(a, b, s.leaders[t'].log, c);
  }

  lemma BackedAgree(s: State, a: Log, b: Log, c: nat, fromA: nat, fromB: nat)
    requires LeadersInv(s) && LogsInv(s) && RemembersInv(s) && Backed(s, a, c, fromA) && Backed(s, b, c, fromB)
    ensures Holds(a, b, c)
  {
    if c > 0 {
      var t: nat, k: nat :| BackedBy(s, a, c, fromA, t, k);
      var t': nat, k': nat :| BackedBy(s, b, c, fromB, t', k');
      if t <= t' {
        BackedByAgree(s, a, b, c, fromA, fromB, t, k, t', k');
      } else {
        BackedByAgree(s, b, a, c, fromB, fromA, t', k', t, k);
      }
    }
  }

  lemma BackedLater(states: seq<State>, steps: seq<Step>, i: nat, j: nat, a: nat, c: nat)
    requires CoveredRun(states, steps) && i <= j < |states| && states[i].Has(a)
    requires Backed(states[i], states[i].nodes[a].log, c, states[i].nodes[a].currentTerm)
    ensures Backed(states[j], states[i].nodes[a].log, c, states[i].nodes[a].currentTerm)
  {
    var v := states[i].nodes[a];
    RunGrows(states, steps, i, j);
    BackedBound(states[i], v.log, c, v.currentTerm);
    BackedGrows(states[i], states[j], v.log, v.log, c, v.currentTerm, v.currentTerm);
  }

  /** State Machine Safety: two nodes, at two moments of a covered run, hold the same entries up to
      any index both have committed; crashes, restarts, loss and reordering allowed. */
  lemma CommittedAgree(states: seq<State>, steps: seq<Step>, i: nat, j: nat, a: nat, b: nat, c: nat)
    requires CoveredRun(states, steps) && i <= j < |states|
    requires states[i].Has(a) && states[j].Has(b)
    requires c <= states[i].nodes[a].commitIndex && c <= states[j].nodes[b].commitIndex
    ensures Holds(states[i].nodes[a].log, states[j].nodes[b].log, c)
  {
    var v, w := states[i].nodes[a], states[j].nodes[b];
    RunCommitInv(states, steps, i);
    RunCommitInv(states, steps, j);
    assert NodeOk(states[i], a) && NodeOk(states[j], b);
    BackedLess(states[i], v.log, c, v.commitIndex, v.currentTerm);
    BackedLess(states[j], w.log, c, w.commitIndex, w.currentTerm);
    BackedLater(states, steps, i, j, a, c);
    BackedAgree(states[j], v.log, w.log, c, v.currentTerm, w.currentTerm);
  }

  /** What a node has committed every leader of its term or a later one holds from then on; so what a caller
      has been answered for is never lost. */
  lemma CommittedInLeaders(states: seq<State>, steps: seq<Step>, i: nat, j: nat, a: nat, b: nat, c: nat)
    requires CoveredRun(states, steps) && i <= j < |states|
    requires states[i].Has(a) && states[j].Has(b) && c <= states[i].nodes[a].commitIndex
    requires states[j].nodes[b].role.Leader? && states[j].nodes[b].currentTerm >= states[i].nodes[a].currentTerm
    ensures Holds(states[i].nodes[a].log, states[j].nodes[b].log, c)
  {
    var v, w := states[i].nodes[a], states[j].nodes[b];
    RunCommitInv(states, steps, i);
    RunInv(states, steps, j);
    assert NodeOk(states[i], a);
    BackedLess(states[i], v.log, c, v.commitIndex, v.currentTerm);
    BackedLater(states, steps, i, j, a, c);
    LeaderHasLog(states[j], b);
    BackedHeld(states[j], v.log, c, v.currentTerm, w.currentTerm);
  }

  /** In a covered run a node that does not crash keeps its committed prefix, its commit index never
      moves back, and it never exceeds the last log index. */
  lemma CommittedKept(states: seq<State>, steps: seq<Step>, i: nat, n: nat)
    requires CoveredRun(states, steps) && i < |steps| && states[i].Has(n)
    requires !(steps[i].n == n && (steps[i].Crash? || steps[i].CrashInElection?))
    ensures states[i + 1].Has(n)
    ensures var v := states[i].nodes[n]; var v' := states[i + 1].nodes[n];
      v.commitIndex <= v'.commitIndex <= |v'.log| && Holds(v'.log, v.log, v.commitIndex)
  {
    var s, s' := states[i], states[i + 1];
    RunCommitInv(states, steps, i);
    RunCommitInv(states, steps, i + 1);
    NodesElsewhere(s, steps[i]);
    assert NodeOk(s, n) && NodeOk(s', n);
    BackedBound(s, s.nodes[n].log, s.nodes[n].commitIndex, s.nodes[n].currentTerm);
    BackedBound(s', s'.nodes[n].log, s'.nodes[n].commitIndex, s'.nodes[n].currentTerm);
    if steps[i].n == n {
      assert Accepts(s, steps[i]) ==> RequestBacked(s, steps[i].msg);
      StepNodeBacked(s, steps[i]);
      StepKeeps(s, steps[i], s.nodes[n].commitIndex);
    }
  }

  lemma FedAgree(v: Node, w: Node)
    requires v.lastApplied <= |v.log| && v.applied == v.log[..v.lastApplied]
    requires w.lastApplied <= |w.log| && w.applied == w.log[..w.lastApplied]
    requires Holds(v.log, w.log, Min(v.lastApplied, w.lastApplied))
    ensures v.applied <= w.applied || w.applied <= v.applied
  {
    var c := Min(v.lastApplied, w.lastApplied);
    assert v.applied[..c] == v.log[..c] == w.log[..c] == w.applied[..c];
  }

  lemma FedFacts(states: seq<State>, steps: seq<Step>, i: nat, a: nat)
    requires CoveredRun(states, steps) && i < |states| && states[i].Has(a) && !states[i].nodes[a].rash
    ensures var v := states[i].nodes[a];
      v.lastApplied <= |v.log| && v.applied == v.log[..v.lastApplied] &&
      Backed(states[i], v.log, v.lastApplied, v.currentTerm)
  {
    RunCommitInv(states, steps, i);
    assert NodeOk(states[i], a);
  }

  /** Any two nodes that have never been rash, restarted or not, have at any two moments fed their state
      machines the same entries in the same order, as far as both have got. */
  lemma AppliedAgree(states: seq<State>, steps: seq<Step>, i: nat, j: nat, a: nat, b: nat)
    requires CoveredRun(states, steps) && i <= j < |states|
    requires states[i].Has(a) && states[j].Has(b)
    requires !states[i].nodes[a].rash && !states[j].nodes[b].rash
    ensures var v := states[i].nodes[a]; var w := states[j].nodes[b];
      |v.applied| == v.lastApplied && |w.applied| == w.lastApplied && (v.applied <= w.applied || w.applied <= v.applied)
  {
    var v, w := states[i].nodes[a], states[j].nodes[b];
    FedFacts(states, steps, i, a);
    FedFacts(states, steps, j, b);
    var c := Min(v.lastApplied, w.lastApplied);
    BackedLess(states[i], v.log, c, v.lastApplied, v.currentTerm);
    BackedLess(states[j], w.log, c, w.lastApplied, w.currentTerm);
    BackedLater(states, steps, i, j, a, c);
    RunInv(states, steps, j);
    BackedAgree(states[j], v.log, w.log, c, v.currentTerm, w.currentTerm);
    FedAgree(v, w);
  }

  lemma ReplayPrefix(x: Log, y: Log)
    requires x <= y
    ensures Replay(NewMachine, x).fed <= Replay(NewMachine, y).fed
  {
    assert y == x + y[|x|..];
    ReplayBatches(NewMachine, x, y[|x|..]);
    ReplayOnlyAdds(Replay(NewMachine, x), y[|x|..]);
  }

  /** So their state machines have had the same inputs, as far as both have got, duplicates left out;
      and at the same last applied index their session tables and answers are the same too. */
  lemma MachinesAgree(states: seq<State>, steps: seq<Step>, i: nat, j: nat, a: nat, b: nat)
    requires CoveredRun(states, steps) && i <= j < |states|
    requires states[i].Has(a) && states[j].Has(b)
    requires !states[i].nodes[a].rash && !states[j].nodes[b].rash
    ensures var x, y := Replay(NewMachine, states[i].nodes[a].applied), Replay(NewMachine, states[j].nodes[b].applied);
      && (x.fed <= y.fed || y.fed <= x.fed)
      && (states[i].nodes[a].lastApplied == states[j].nodes[b].lastApplied ==> x == y)
  {
    var v, w := states[i].nodes[a], states[j].nodes[b];
    AppliedAgree(states, steps, i, j, a, b);
    assert |v.applied| == |w.applied| ==> v.applied == w.applied;
    if v.applied <= w.applied {
      ReplayPrefix(v.applied, w.applied);
    } else {
      ReplayPrefix(w.applied, v.applied);
    }
  }

  // ----- nodes that have been rash -----

  /** What the state machine has been fed is the start of the log. */
  predicate FedFromLog(v: Node) {
    v.lastApplied <= |v.log| && v.applied == v.log[..v.lastApplied]
  }

  /** The request has an entry of another term than the log's at some index up to i. */
  predicate CutsBelow(log: Log, m: AppendMsg, i: nat) {
    exists j :: 0 <= j < |m.entries| && m.prevIndex + j < i && m.prevIndex + j < |log| &&
      log[m.prevIndex + j].term != m.entries[j].term
  }

  lemma NoCut(f: Node, m: AppendMsg, k: nat)
    requires FedFromLog(f) && Consistent(f.log, m.prevIndex, m.prevTerm) && AgreesFor(f.log, m.prevIndex, m.entries, k)
    requires m.prevIndex + k >= f.lastApplied || k == |m.entries|
    requires Append(f.log, m.prevIndex, m.entries) ==
      if k == |m.entries| then f.log else f.log[..m.prevIndex + k] + m.entries[k..]
    ensures FedFromLog(TakeAsFollower(f, m).0)
  {
    var log' := Append(f.log, m.prevIndex, m.entries);
    assert log'[..f.lastApplied] == f.log[..f.lastApplied];
    TakeApplies(f, m);
    AppliedPrefix(f, TakeAsFollower(f, m).0);
  }

  lemma TakeApplies(f: Node, m: AppendMsg)
    ensures Applies(f, TakeAsFollower(f, m).0)
    ensures TakeAsFollower(f, m).1 ==> TakeAsFollower(f, m).0.log == Append(f.log, m.prevIndex, m.entries)
  {
  }

  lemma Cut(f: Node, m: AppendMsg, k: nat)
    requires FedFromLog(f) && Consistent(f.log, m.prevIndex, m.prevTerm) && k < |m.entries|
    requires m.prevIndex + k < f.lastApplied && f.log[m.prevIndex + k].term != m.entries[k].term
    requires Append(f.log, m.prevIndex, m.entries) == f.log[..m.prevIndex + k] + m.entries[k..]
    ensures !FedFromLog(TakeAsFollower(f, m).0)
  {
    var f' := TakeAsFollower(f, m).0;
    TakeApplies(f, m);
    var i := m.prevIndex + k;
    assert f'.log[i] == m.entries[k] && f'.applied[i] == f.log[i];
    assert f'.lastApplied <= |f'.log| ==> f'.log[..f'.lastApplied][i] == m.entries[k];
  }

  /** Exactly when what a node has fed its state machine stays the start of its log: when an accepted request
      cuts the log only above the last applied index.  In a covered run a node that is not rash meets no other. */
  lemma FedSurvives(f: Node, m: AppendMsg)
    requires FedFromLog(f) && Consistent(f.log, m.prevIndex, m.prevTerm)
    ensures FedFromLog(TakeAsFollower(f, m).0) <==> !CutsBelow(f.log, m, f.lastApplied)
  {
    var k := AppendExact(f.log, m.prevIndex, m.entries);
    CutWhere(f, m, k);
    if k < |m.entries| && m.prevIndex + k < f.lastApplied {
      Cut(f, m, k);
    } else {
      NoCut(f, m, k);
    }
  }

  lemma CutWhere(f: Node, m: AppendMsg, k: nat)
    requires f.lastApplied <= |f.log|
    requires AgreesFor(f.log, m.prevIndex, m.entries, k) && !AgreesFor(f.log, m.prevIndex, m.entries, k + 1)
    ensures var cut := k < |m.entries| && m.prevIndex + k < f.lastApplied;
      && (CutsBelow(f.log, m, f.lastApplied) <==> cut)
      && (cut ==> f.log[m.prevIndex + k].term != m.entries[k].term)
  {
    if k < |m.entries| && m.prevIndex + k < f.lastApplied {
      assert f.log[m.prevIndex + k].term != m.entries[k].term;
    }
  }
}
