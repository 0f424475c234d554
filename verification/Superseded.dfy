/** When a leader object may be trusted with the commit index.  The program lets any leader object of a node
    that is leader now move it; this module says exactly which of them can be wrong. */
module Superseded {
  import opened Types
  import opened Logs
  import opened Quorums
  import opened Nodes
  import opened Cluster
  import opened Invariants
  import opened Preservation
  import Commitment

  /** Another state of the cluster that looks the same to this leader object: its own book, and its node's
      log, term and commit index. */
  ghost predicate SameSight(s: State, s': State, n: nat, reign: nat) {
    && s.Has(n) && |s'.nodes| == |s.nodes|
    && var v, v' := s.nodes[n], s'.nodes[n];
       && v.role.Leader? && v'.role.Leader? && v'.log == v.log && v'.currentTerm == v.currentTerm
       && v'.commitIndex == v.commitIndex
       && reign in v.leaderships && reign in v'.leaderships && v'.leaderships[reign] == v.leaderships[reign]
  }

  /** If the object moves the commit index, it moves it to an entry that a majority has acknowledged in the
      node's term. */
  ghost predicate CommitsChosen(s: State, n: nat, reign: nat)
    requires s.Has(n) && reign in s.nodes[n].leaderships
  {
    var v := s.nodes[n];
    var c := TryAdvance(v, reign).commitIndex;
    c != v.commitIndex ==> Chosen(s, v.currentTerm, c)
  }

  /** In every state that satisfies the invariants and looks the same to it, the object commits only what is
      chosen. */
  ghost predicate Safe(s: State, n: nat, reign: nat) {
    forall s': State | Inv(s') && SameSight(s, s', n, reign) :: CommitsChosen(s', n, reign)
  }

  lemma SeenSafe(s: State, s': State, n: nat, reign: nat)
    requires Inv(s') && SameSight(s, s', n, reign)
    requires InTerm(s, n, reign) || TryAdvance(s.nodes[n], reign).commitIndex == s.nodes[n].commitIndex
    ensures CommitsChosen(s', n, reign)
  {
    var v := s'.nodes[n];
    AdvanceBound(v, reign);
    if InTerm(s, n, reign) {
      if TryAdvance(v, reign).commitIndex != v.commitIndex {
        AdvanceChosen(s', n, reign);
      }
    } else {
      AdvanceBound(s.nodes[n], reign);
    }
  }

  // ----- a cluster in which nobody else has heard of the present term's entries -----

  function OnlyOwn(matched: seq<nat>, n: nat): seq<nat> {
    seq(|matched|, p requires 0 <= p < |matched| => if p == n then matched[p] else 0)
  }

  function ForgottenNode(v: Node, n: nat): Node {
    v.(leaderships := map r | r in v.leaderships :: var o := v.leaderships[r];
      if o.term == v.currentTerm then o.(matched := OnlyOwn(o.matched, n)) else o)
  }

  function Forgotten(s: State, n: nat): State
    requires s.Has(n)
  {
    var term := s.nodes[n].currentTerm;
    s.(nodes := s.nodes[n := ForgottenNode(s.nodes[n], n)],
       replies := (set m | m in s.replies && m.term != term),
       acks := (set a | a in s.acks && (a.term != term || a.node == n)))
  }

  lemma ForgottenElections(s: State, n: nat)
    requires VotesInv(s) && BallotsInv(s) && CountedInv(s) && LeadersInv(s) && LogsInv(s) && s.Has(n)
    ensures var s' := Forgotten(s, n); VotesInv(s') && BallotsInv(s') && CountedInv(s') && LeadersInv(s') && LogsInv(s')
  {
    ForgottenVotes(s, n);
    ForgottenLeaders(s, n);
  }

  lemma ForgottenVotes(s: State, n: nat)
    requires VotesInv(s) && BallotsInv(s) && CountedInv(s) && s.Has(n)
    ensures var s' := Forgotten(s, n); VotesInv(s') && BallotsInv(s') && CountedInv(s')
  {
    var s' := Forgotten(s, n);
    forall i | 0 <= i < |s'.nodes| ensures CountedOk(s', i) {
      assert CountedOk(s, i);
    }
    forall vote | vote in s'.votes ensures VoteOk(s', vote) {
      assert VoteOk(s, vote);
    }
    forall b | b in s'.ballots ensures BallotOk(s', b) {
      assert BallotOk(s, b);
    }
  }

  lemma ForgottenLeaders(s: State, n: nat)
    requires LeadersInv(s) && LogsInv(s) && s.Has(n)
    ensures LeadersInv(Forgotten(s, n)) && LogsInv(Forgotten(s, n))
  {
    var s' := Forgotten(s, n);
    forall i | 0 <= i < |s'.nodes| ensures RoleOk(s', i) && LogOk(s'.nodes[i].log, s'.leaders) {
      assert RoleOk(s, i) && LogOk(s.nodes[i].log, s.leaders);
    }
    forall t | t in s'.leaders ensures LeadershipOk(s', t) {
      ForgottenLeadership(s, n, t);
    }
  }

  lemma ForgottenLeadership(s: State, n: nat, t: nat)
    requires s.Has(n) && t in s.leaders && LeadershipOk(s, t)
    ensures LeadershipOk(Forgotten(s, n), t)
  {
  }

  lemma ForgottenRequests(s: State, n: nat)
    requires AppendsInv(s) && RepliesInv(s) && s.Has(n)
    ensures AppendsInv(Forgotten(s, n)) && RepliesInv(Forgotten(s, n))
  {
    var s' := Forgotten(s, n);
    forall m | m in s'.appends ensures AppendOk(s', m) {
      assert AppendOk(s, m);
      var t :| SentIn(s, m, t);
      assert SentIn(s', m, t);
    }
    forall m | m in s'.replies ensures ReplyOk(s', m) {
      assert ReplyOk(s, m);
    }
  }

  lemma ForgottenMemory(s: State, n: nat)
    requires AcksInv(s) && KeptInv(s) && RemembersInv(s) && s.Has(n)
    ensures AcksInv(Forgotten(s, n)) && KeptInv(Forgotten(s, n)) && RemembersInv(Forgotten(s, n))
  {
    var s' := Forgotten(s, n);
    forall a | a in s'.acks ensures AckOk(s', a) {
      assert AckOk(s, a);
    }
    forall a, j | a in s'.acks && 0 <= j <= a.index && s'.Has(a.node) ensures AckKept(s', a, j) {
      assert AckKept(s, a, j);
    }
    forall vote, a, j | vote in s'.votes && a in s'.acks && 0 <= j <= a.index
      ensures VoteRemembers(s'.leaders, vote, a, j)
    {
      assert VoteRemembers(s.leaders, vote, a, j);
    }
  }

  lemma ForgottenBooks(s: State, n: nat)
    requires BooksInv(s) && LeadersInv(s) && s.Has(n) && s.nodes[n].role.Leader?
    ensures BooksInv(Forgotten(s, n))
  {
    var s' := Forgotten(s, n);
    assert RoleOk(s, n);
    forall i, r | 0 <= i < |s'.nodes| && r in s'.nodes[i].leaderships ensures BookOk(s', i, r) {
      assert BookOk(s, i, r);
    }
  }

  lemma ForgottenInv(s: State, n: nat)
    requires Inv(s) && s.Has(n) && s.nodes[n].role.Leader?
    ensures Inv(Forgotten(s, n))
  {
    ForgottenElections(s, n);
    ForgottenRequests(s, n);
    ForgottenMemory(s, n);
    ForgottenBooks(s, n);
  }

  /** There nothing at all is chosen in the node's term. */
  lemma NothingChosen(s: State, n: nat, k: nat)
    requires s.Has(n) && |s.nodes| > 1
    ensures !Chosen(Forgotten(s, n), s.nodes[n].currentTerm, k)
  {
    var s', term := Forgotten(s, n), s.nodes[n].currentTerm;
    forall q | Quorum(q, |s'.nodes|)
      ensures !AckedByAll(s', q, term, k)
    {
      var p := Another(q, n);
      assert !Acked(s', p, term, k);
    }
  }

  lemma Another(q: set<nat>, n: nat) returns (p: nat)
    requires |q| > 1
    ensures p in q && p != n
  {
    assert |q - {n}| >= |q| - 1;
    p :| p in q - {n};
  }

  lemma ForgottenSight(s: State, n: nat, reign: nat)
    requires s.Has(n) && s.nodes[n].role.Leader? && reign in s.nodes[n].leaderships && !InTerm(s, n, reign)
    ensures SameSight(s, Forgotten(s, n), n, reign)
    ensures TryAdvance(Forgotten(s, n).nodes[n], reign).commitIndex == TryAdvance(s.nodes[n], reign).commitIndex
  {
  }

  /** The missing guard: in a cluster of two nodes or more, a leader object of a node that is leader commits only
      what is chosen, in every state that satisfies the invariants and looks the same to it, if and only if it is
      of the node's current term or does not move the commit index. */
  lemma SafeExactly(s: State, n: nat, reign: nat)
    requires Inv(s) && s.Has(n) && s.nodes[n].role.Leader? && reign in s.nodes[n].leaderships && |s.nodes| > 1
    ensures Safe(s, n, reign) <==>
      InTerm(s, n, reign) || TryAdvance(s.nodes[n], reign).commitIndex == s.nodes[n].commitIndex
  {
    if InTerm(s, n, reign) || TryAdvance(s.nodes[n], reign).commitIndex == s.nodes[n].commitIndex {
      forall s': State | Inv(s') && SameSight(s, s', n, reign)
        ensures CommitsChosen(s', n, reign)
      {
        SeenSafe(s, s', n, reign);
      }
    } else {
      ForgottenInv(s, n);
      ForgottenSight(s, n, reign);
      NothingChosen(s, n, TryAdvance(s.nodes[n], reign).commitIndex);
    }
  }
}
