/** What a round of replication achieves when nothing gets in its way: safety alone would hold of a node
    that never commits anything. */
module Progress {
  import opened Types
  import opened Logs
  import opened Quorums
  import opened Nodes
  import opened Cluster
  import opened Invariants
  import opened Preservation
  import opened Safety
  import opened CommitCap
  import opened StateMachineSafety
  import Commitment

  ghost predicate Leads(s: State, n: nat) {
    s.Has(n) && s.nodes[n].role.Leader?
  }

  lemma Accepted(id: nat, w: Node, m: AppendMsg)
    requires w.currentTerm <= m.term && m.from != id && Consistent(w.log, m.prevIndex, m.prevTerm)
    requires m.leaderCommit <= |Append(w.log, m.prevIndex, m.entries)|
    ensures var (w', ok) := HandleAppend(id, w, m);
      && ok && w'.log == Append(w.log, m.prevIndex, m.entries) && w'.commitIndex == Max(w.commitIndex, m.leaderCommit)
      && w'.lastApplied == Max(w.lastApplied, Min(w'.commitIndex, |w'.log|))
  {
  }

  /** The request leader n's own role object would send to p now. */
  function CatchUp(s: State, n: nat, p: nat, maxBatch: nat): AppendMsg
    requires s.Has(n) && s.nodes[n].roleId in s.nodes[n].leaderships
    requires p < |s.nodes[n].leaderships[s.nodes[n].roleId].next|
  {
    BuildAppend(n, s.nodes[n], s.nodes[n].roleId, p, maxBatch)
  }

  lemma RequestFacts(s: State, n: nat, p: nat, maxBatch: nat)
    requires LeadersInv(s) && BooksInv(s) && Leads(s, n) && s.nodes[n].roleId in s.nodes[n].leaderships
    requires p != n && p < |s.nodes[n].leaderships[s.nodes[n].roleId].next|
    ensures var v, m := s.nodes[n], CatchUp(s, n, p, maxBatch);
      && SentIn(s, m, m.term) && m.term == v.currentTerm && m.from == n && m.leaderCommit == v.commitIndex
      && m.term in s.leaders && s.leaders[m.term].log == v.log && v.log != [] && LastTerm(v.log) == m.term
  {
    var v := s.nodes[n];
    LeaderHasLog(s, n);
    assert RoleOk(s, n) && BookOk(s, n, v.roleId) && LeadershipOk(s, v.currentTerm);
    BuiltOk(s, n, v.roleId, p, maxBatch);
  }

  /** A follower that accepts a request reaching the leader's last index holds the leader's whole log
      afterwards, has committed what the leader had, and has applied all of it.  It has nothing else, unless its
      log ended in a later term, which only a request by a superseded object can have brought it. */
  lemma FollowerCatchesUp(s: State, n: nat, p: nat, maxBatch: nat)
    requires Inv(s) && CommitInv(s) && Leads(s, n) && s.Has(p) && p != n
    requires s.nodes[n].roleId in s.nodes[n].leaderships && p < |s.nodes[n].leaderships[s.nodes[n].roleId].next|
    requires s.nodes[p].currentTerm <= s.nodes[n].currentTerm
    requires var m := CatchUp(s, n, p, maxBatch);
      m.LastIndex() == |s.nodes[n].log| && Consistent(s.nodes[p].log, m.prevIndex, m.prevTerm)
    ensures var v, w := s.nodes[n], s.nodes[p]; var (w', ok) := HandleAppend(p, w, CatchUp(s, n, p, maxBatch));
      && ok && v.log <= w'.log && (LastTerm(w.log) <= v.currentTerm ==> w'.log == v.log)
      && w'.commitIndex == Max(w.commitIndex, v.commitIndex)
      && w'.lastApplied == Max(w.lastApplied, Min(w'.commitIndex, |w'.log|))
  {
    var m := CatchUp(s, n, p, maxBatch);
    RequestFacts(s, n, p, maxBatch);
    assert NodeOk(s, n);
    BackedBound(s, s.nodes[n].log, s.nodes[n].commitIndex, s.nodes[n].currentTerm);
    WholeTailTaken(s, n, p, m);
    Accepted(p, s.nodes[p], m);
  }

  lemma FollowerTerms(s: State, p: nat, term: nat)
    requires LeadersInv(s) && LogsInv(s) && s.Has(p) && LastTerm(s.nodes[p].log) <= term
    ensures TermsUpTo(s.nodes[p].log, term)
  {
    assert LogOk(s.nodes[p].log, s.leaders);
    forall t | t in s.leaders
      ensures t >= 1
    {
      assert LeadershipOk(s, t);
    }
    TermsFromLast(s.nodes[p].log, s.leaders, term);
  }

  lemma WholeTailAfter(log: Log, m: AppendMsg, leader: Log)
    requires CommonOrigin(log, leader) && Sorted(log) && Stretch(m, leader)
    requires Consistent(log, m.prevIndex, m.prevTerm) && m.LastIndex() == |leader| && leader != []
    ensures leader <= After(log, m)
    ensures LastTerm(leader) == m.term && TermsUpTo(log, m.term) && NotBeyond(log, leader, m.term) ==>
      After(log, m) == leader
  {
    OriginMatches(log, leader);
    var cut := AfterShape(log, m, leader);
    assert leader[..|leader|] == leader;
    if LastTerm(leader) == m.term && TermsUpTo(log, m.term) && NotBeyond(log, leader, m.term) {
      LastSent(m, leader);
      TailPrefix(log, m, leader);
    }
  }

  lemma LastSent(m: AppendMsg, leader: Log)
    requires Stretch(m, leader) && m.LastIndex() == |leader| && leader != []
    ensures m.LastTerm() == LastTerm(leader)
  {
    assert m.entries != [] ==> m.entries[|m.entries| - 1] == leader[|leader| - 1];
  }

  /** The whole tail, taken by a log that matches, leaves the leader's log, or more if there were later terms. */
  lemma WholeTailTaken(s: State, n: nat, p: nat, m: AppendMsg)
    requires LogsInv(s) && LeadersInv(s) && s.Has(n) && s.Has(p) && SentIn(s, m, m.term)
    requires s.leaders[m.term].log == s.nodes[n].log && LastTerm(s.nodes[n].log) == m.term
    requires m.LastIndex() == |s.nodes[n].log| && s.nodes[n].log != []
    requires Consistent(s.nodes[p].log, m.prevIndex, m.prevTerm)
    ensures var after := Append(s.nodes[p].log, m.prevIndex, m.entries);
      s.nodes[n].log <= after && (LastTerm(s.nodes[p].log) <= m.term ==> after == s.nodes[n].log)
  {
    var log, leader := s.nodes[p].log, s.nodes[n].log;
    assert LogOk(log, s.leaders) && LogOk(leader, s.leaders);
    AnchoredOrigin(log, leader, s.leaders);
    forall i | |leader| <= i < |log| ensures log[i].term != m.term {
      assert AnchoredAt(log, i, s.leaders);
    }
    FoundEntry(s, p, m);
    if LastTerm(log) <= m.term {
      FollowerTerms(s, p, m.term);
    }
    WholeTailAfter(log, m, leader);
  }

  /** A request that fits the follower's log is not one that looks beyond the leader's. */
  lemma FoundEntry(s: State, p: nat, m: AppendMsg)
    requires LogsInv(s) && LeadersInv(s) && s.Has(p) && Consistent(s.nodes[p].log, m.prevIndex, m.prevTerm)
    ensures m.prevIndex > 0 ==> m.prevTerm > 0
  {
    assert LogOk(s.nodes[p].log, s.leaders);
    AnchoredPositive(s, s.nodes[p].log);
  }

  lemma MatchedWithin(s: State, n: nat)
    requires BooksInv(s) && AcksInv(s) && LeadersInv(s) && Leads(s, n) && s.nodes[n].roleId in s.nodes[n].leaderships
    ensures var v := s.nodes[n]; var matched := v.leaderships[v.roleId].matched;
      && |matched| == |s.nodes| && v.log != [] && LastTerm(v.log) == v.currentTerm
      && forall p | 0 <= p < |matched| :: matched[p] <= |v.log|
  {
    var v := s.nodes[n];
    assert RoleOk(s, n) && BookOk(s, n, v.roleId) && LeadershipOk(s, v.currentTerm);
    var matched := v.leaderships[v.roleId].matched;
    forall p | 0 <= p < |matched|
      ensures matched[p] <= |v.log|
    {
      assert matched[p] > 0 ==> AckOk(s, Ack(p, v.currentTerm, matched[p]));
    }
  }

  lemma AdvancesToEnd(v: Node, reign: nat)
    requires reign in v.leaderships && v.log != [] && LastTerm(v.log) == v.currentTerm && v.commitIndex <= |v.log|
    requires v.leaderships[reign].matched != [] && Commitment.Candidate(v.leaderships[reign].matched) == |v.log|
    ensures TryAdvance(v, reign).commitIndex == |v.log|
  {
  }

  /** A leader whose match indexes have reached its last index on a majority commits its whole log. */
  lemma LeaderCommitsAll(s: State, n: nat, q: set<nat>)
    requires Inv(s) && Leads(s, n) && s.nodes[n].roleId in s.nodes[n].leaderships && Quorum(q, |s.nodes|)
    requires s.nodes[n].commitIndex <= |s.nodes[n].log|
    requires var o := s.nodes[n].leaderships[s.nodes[n].roleId];
      forall p | p in q :: p < |o.matched| && o.matched[p] >= |s.nodes[n].log|
    ensures TryAdvance(s.nodes[n], s.nodes[n].roleId).commitIndex == |s.nodes[n].log|
  {
    var v := s.nodes[n];
    MatchedWithin(s, n);
    MajorityReaches(v.leaderships[v.roleId].matched, q, |v.log|);
    AdvancesToEnd(v, v.roleId);
  }

  lemma MajorityReaches(matched: seq<nat>, q: set<nat>, k: nat)
    requires Quorum(q, |matched|) && k > 0 && forall p | 0 <= p < |matched| :: matched[p] <= k
    requires forall p | p in q :: p < |matched| && matched[p] >= k
    ensures Commitment.Candidate(matched) == k
  {
    Commitment.CandidateExact(matched, k);
    Commitment.CandidateExact(matched, k + 1);
    Within(q, Commitment.Holders(matched, k));
    assert Commitment.Holders(matched, k + 1) == {};
  }

  lemma Within(a: set<nat>, b: set<nat>)
    requires a <= b
    ensures |a| <= |b|
  {
    assert b == a + (b - a);
  }
}
