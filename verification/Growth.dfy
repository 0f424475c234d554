/** How the cluster's history grows, and which facts survive that. */
module Growth {
  import opened Types
  import opened Logs
  import opened Quorums
  import opened Nodes
  import opened Cluster
  import opened Invariants

  ghost predicate LeadersGrow(a: Leaders, b: Leaders) {
    && |a| <= |b|
    && forall t | t in a :: t in b && a[t].log <= b[t].log && b[t] == a[t].(log := b[t].log)
  }

  /** Nothing recorded is ever taken back, leaders' logs only get longer, and terms only rise. */
  ghost predicate Grows(s: State, s': State) {
    && |s'.nodes| == |s.nodes| && LeadersGrow(s.leaders, s'.leaders)
    && s.ballots <= s'.ballots && s.votes <= s'.votes && s.appends <= s'.appends
    && s.replies <= s'.replies && s.acks <= s'.acks
    && forall n | 0 <= n < |s.nodes| :: s.nodes[n].currentTerm <= s'.nodes[n].currentTerm
  }

  lemma GrowsTransitive(a: State, b: State, c: State)
    requires Grows(a, b) && Grows(b, c)
    ensures Grows(a, c)
  {
    forall t | t in a.leaders ensures a.leaders[t].log <= c.leaders[t].log {
      assert a.leaders[t].log <= b.leaders[t].log <= c.leaders[t].log;
    }
  }

  lemma AnchoredGrows(log: Log, a: Leaders, b: Leaders)
    requires Anchored(log, a) && LeadersGrow(a, b)
    ensures Anchored(log, b)
  {
    forall i | 0 <= i < |log| ensures AnchoredAt(log, i, b) {
      assert AnchoredAt(log, i, a);
      var t := log[i].term;
      assert b[t].log[..i + 1] == a[t].log[..i + 1];
    }
  }

  lemma HoldsGrows(log: Log, a: Log, b: Log, k: nat)
    requires a <= b && k <= |a|
    ensures Holds(log, a, k) <==> Holds(log, b, k)
  {
    assert a[..k] == b[..k];
  }

  /** A leader that lacks another's entries never comes to hold them: what it adds is of its own term. */
  lemma LackingGrows(a: Leaders, b: Leaders, from: nat, k: nat, t: nat)
    requires LeadersGrow(a, b) && OwnTermAt(a, from, k) && from < t && t in a
    requires LastTerm(a[t].log) == t && Sorted(b[t].log)
    requires Holds(b[t].log, b[from].log, k)
    ensures Holds(a[t].log, a[from].log, k)
  {
    assert b[t].log[k - 1] == b[t].log[..k][k - 1] == b[from].log[..k][k - 1] == a[from].log[k - 1];
    assert b[t].log[|a[t].log| - 1].term == t;
    assert k <= |a[t].log|;
    assert a[t].log[..k] == b[t].log[..k] == b[from].log[..k] == a[from].log[..k];
  }

  lemma OverwrittenGrows(a: Leaders, b: Leaders, from: nat, k: nat, before: nat, before': nat)
    requires LeadersGrow(a, b) && OwnTermAt(a, from, k) && before <= before'
    requires forall t | t in a :: LastTerm(a[t].log) == t && Sorted(b[t].log)
    requires Overwritten(a, from, k, before)
    ensures Overwritten(b, from, k, before')
  {
    var t :| from < t && t in a && a[t].rank < before && !Holds(a[t].log, a[from].log, k);
    if Holds(b[t].log, b[from].log, k) {
      LackingGrows(a, b, from, k, t);
    }
  }

  lemma ChosenGrows(s: State, s': State, term: nat, k: nat)
    requires Grows(s, s') && Chosen(s, term, k)
    ensures Chosen(s', term, k)
  {
    var q :| AckedByAll(s, q, term, k);
    forall p | p in q ensures Acked(s', p, term, k) {
      assert Acked(s, p, term, k);
    }
    assert AckedByAll(s', q, term, k);
  }
}
