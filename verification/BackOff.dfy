/** Fast back-off: how a leader finds the place where a follower's log departs from its own. */
module FastBackOff {
  import opened Types
  import opened Logs
  import opened Nodes
  import opened Compaction
  import opened Cluster
  import opened Invariants
  import opened Preservation
  import opened Safety

  /** The follower's reply to a request whose previous index is `prev`: nothing if it accepts, or the
      conflict index and term. */
  function Reply(follower: Log, prev: nat, prevTerm: nat): Option<(nat, nat)> {
    if prev > |follower| then Some((|follower| + 1, 0))
    else if Consistent(follower, prev, prevTerm) then None
    else Some((RunStart(follower, prev, 0), follower[prev - 1].term))
  }

  /** One call: none if it was accepted, otherwise the next index to try and the conflict term reported. */
  function Probe(leader: Log, follower: Log, next: nat): Option<(nat, nat)>
    requires 1 <= next <= |leader| + 1
  {
    match Reply(follower, next - 1, TermAt(leader, next - 1))
    case None => None
    case Some((conflictIndex, conflictTerm)) => Some((BackOff(leader, next, conflictIndex, conflictTerm), conflictTerm))
  }

  lemma {:induction false} RunStartFacts(log: Log, index: nat)
    requires 0 < index <= |log| && Sorted(log)
    ensures var r := RunStart(log, index, 0);
      1 <= r <= index && log[r - 1].term == log[index - 1].term && (r > 1 ==> log[r - 2].term < log[index - 1].term)
    decreases index
  {
    if index > 1 && log[index - 2].term == log[index - 1].term {
      RunStartFacts(log, index - 1);
    }
  }

  /** On a sorted log the backward walk finds the last entry of the term, or rightly none. */
  lemma {:induction false} LastIndexOfTermFacts(log: Log, term: nat)
    requires Sorted(log) && term > 0
    ensures var r := LastIndexOfTerm(log, term);
      && r <= |log| && (r > 0 ==> log[r - 1].term == term)
      && (forall i | r <= i < |log| :: log[i].term != term)
      && (r > 0 ==> forall i | r <= i < |log| :: log[i].term > term)
  {
    if log != [] && log[|log| - 1].term > term {
      LastIndexOfTermFacts(log[..|log| - 1], term);
    }
  }

  /** A follower cannot hold, early, a term that the leader holds only later. */
  lemma SameBelow(leader: Log, follower: Log, i: nat, j: nat)
    requires CommonOrigin(leader, follower) && 1 <= j <= i <= |leader| && j <= |follower|
    requires leader[i - 1].term == follower[j - 1].term
    ensures leader[j - 1] == follower[j - 1]
  {
    assert Holds(leader, follower, Min(i - 1, j - 1) + 1);
    assert leader[j - 1] == leader[..j][j - 1] == follower[..j][j - 1];
  }

  /** A rejection moves the next index strictly back, never below 1.  If it reports a conflict term, the
      next call meets the first point of divergence or a strictly smaller conflict term; if it reports
      that the follower is too short, the next call asks about the follower's last entry. */
  lemma ProbeProgress(leader: Log, follower: Log, next: nat)
    requires 1 <= next <= |leader| + 1 && Sorted(leader) && Sorted(follower) && Positive(leader) && Positive(follower)
    requires CommonOrigin(leader, follower) && Probe(leader, follower, next).Some?
    ensures var (next', conflict) := Probe(leader, follower, next).value;
      && 1 <= next' < next && next' - 1 <= |follower|
      && (conflict == 0 <==> next - 1 > |follower|) && (conflict == 0 ==> next' == |follower| + 1)
      && (conflict > 0 ==> follower[next - 2].term == conflict)
      && Diverges(leader, follower, next' - 1)
      && (conflict > 0 && next' > 1 && follower[next' - 2].term != leader[next' - 2].term ==>
           follower[next' - 2].term < conflict)
  {
    var prev := next - 1;
    if prev <= |follower| {
      var term := follower[prev - 1].term;
      RunStartFacts(follower, prev);
      LastIndexOfTermFacts(leader, term);
      var last := LastIndexOfTerm(leader, term);
      if last >= prev {
        SameBelow(leader, follower, last, prev);
      }
    }
  }

  /** The logs do not agree on the entry after the first k, because one ends there or the terms differ. */
  predicate Diverges(leader: Log, follower: Log, k: nat) {
    k <= |leader| && k <= |follower| && (k < |leader| && k < |follower| ==> leader[k].term != follower[k].term)
  }

  /** The conflict terms reported until a call is accepted, and the next index of that call. */
  function Settle(leader: Log, follower: Log, next: nat): (r: (seq<nat>, nat))
    requires 1 <= next <= |leader| + 1 && Sorted(leader) && Sorted(follower) && Positive(leader) && Positive(follower)
    requires CommonOrigin(leader, follower)
    decreases next
  {
    match Probe(leader, follower, next)
    case None => ([], next)
    case Some((next', conflict)) =>
      ProbeProgress(leader, follower, next);
      var (conflicts, final) := Settle(leader, follower, next');
      ([conflict] + conflicts, final)
  }

  predicate Falling(s: seq<nat>) {
    forall i | 0 < i < |s| :: s[i] < s[i - 1]
  }

  /** From an index within reach of the follower, the conflict terms fall and are the follower's own. */
  lemma {:induction false} ConflictsFallWithin(leader: Log, follower: Log, next: nat)
    requires 1 <= next <= |leader| + 1 && Sorted(leader) && Sorted(follower) && Positive(leader) && Positive(follower)
    requires CommonOrigin(leader, follower) && next - 1 <= |follower|
    ensures var conflicts := Settle(leader, follower, next).0;
      && Falling(conflicts) && (forall t | t in conflicts :: t in Terms(follower))
      && (conflicts != [] ==> next > 1 && conflicts[0] == follower[next - 2].term != leader[next - 2].term)
    decreases next
  {
    if Probe(leader, follower, next).Some? {
      var (next', conflict) := Probe(leader, follower, next).value;
      ProbeProgress(leader, follower, next);
      ConflictsFallWithin(leader, follower, next');
      assert follower[next - 2] in follower;
      var rest := Settle(leader, follower, next').0;
      assert Settle(leader, follower, next).0 == [conflict] + rest;
    }
  }

  /** The conflict terms reported are strictly falling terms of the follower's own, after a first 0 if the
      first call looked beyond the follower's end. */
  lemma ConflictsFall(leader: Log, follower: Log, next: nat)
    requires 1 <= next <= |leader| + 1 && Sorted(leader) && Sorted(follower) && Positive(leader) && Positive(follower)
    requires CommonOrigin(leader, follower)
    ensures var conflicts := Settle(leader, follower, next).0; var short := next - 1 > |follower|;
      && (short ==> conflicts != [] && conflicts[0] == 0)
      && var own := if short then conflicts[1..] else conflicts;
         Falling(own) && forall t | t in own :: t in Terms(follower)
  {
    if next - 1 > |follower| {
      var (next', conflict) := Probe(leader, follower, next).value;
      ProbeProgress(leader, follower, next);
      ConflictsFallWithin(leader, follower, next');
      assert Settle(leader, follower, next).0[1..] == Settle(leader, follower, next').0;
    } else {
      ConflictsFallWithin(leader, follower, next);
    }
  }

  lemma {:induction false} FallingLength(s: seq<nat>, all: set<nat>)
    requires Falling(s) && forall t | t in s :: t in all
    ensures |s| <= |all|
    decreases |s|
  {
    if s != [] {
      FallingBelow(s);
      assert forall t | t in s[1..] :: t in all - {s[0]};
      FallingLength(s[1..], all - {s[0]});
    }
  }

  lemma {:induction false} FallingBelow(s: seq<nat>)
    requires Falling(s) && s != []
    ensures forall i | 0 < i < |s| :: s[i] < s[0]
  {
    if |s| > 1 {
      FallingBelow(s[..|s| - 1]);
      assert s[|s| - 1] < s[|s| - 2];
      assert forall i | 0 < i < |s| - 1 :: s[i] == s[..|s| - 1][i];
    }
  }

  lemma AcceptedAgree(leader: Log, follower: Log, next: nat)
    requires 1 <= next <= |leader| + 1 && CommonOrigin(leader, follower) && Probe(leader, follower, next).None?
    ensures Holds(leader, follower, next - 1)
  {
    if next > 1 {
      assert Holds(leader, follower, Min(next - 2, next - 2) + 1);
    }
  }

  /** Fast back-off converges: with no lost call, at most one rejection more than the follower's log has
      distinct terms; and if there was any, the accepted call starts at the first divergence of the two
      logs, which is the follower's end when it is a prefix of the leader. */
  lemma {:induction false} SettleConverges(leader: Log, follower: Log, next: nat)
    requires 1 <= next <= |leader| + 1 && Sorted(leader) && Sorted(follower) && Positive(leader) && Positive(follower)
    requires CommonOrigin(leader, follower)
    ensures var (conflicts, final) := Settle(leader, follower, next);
      && |conflicts| <= 1 + |Terms(follower)|
      && 1 <= final <= next && Holds(leader, follower, final - 1)
      && (conflicts != [] ==> Diverges(leader, follower, final - 1))
    decreases next
  {
    match Probe(leader, follower, next)
    case None =>
      AcceptedAgree(leader, follower, next);
    case Some((next', conflict)) =>
      ProbeProgress(leader, follower, next);
      SettleConverges(leader, follower, next');
      ConflictsFallWithin(leader, follower, next');
      var (rest, final) := Settle(leader, follower, next');
      FallingLength(rest, Terms(follower));
      assert Settle(leader, follower, next) == ([conflict] + rest, final);
  }

  /** In every reachable state the back-off between any two nodes' logs converges. */
  lemma ClusterSettles(states: seq<State>, steps: seq<Step>, at: nat, a: nat, b: nat, next: nat)
    requires Run(states, steps) && at < |states| && states[at].Has(a) && states[at].Has(b)
    requires 1 <= next <= |states[at].nodes[a].log| + 1
    ensures var leader := states[at].nodes[a].log; var follower := states[at].nodes[b].log;
      && Sorted(leader) && Sorted(follower) && Positive(leader) && Positive(follower) && CommonOrigin(leader, follower)
      && var (conflicts, final) := Settle(leader, follower, next);
         |conflicts| <= 1 + |Terms(follower)| && final >= 1 && Holds(leader, follower, final - 1)
         && (conflicts != [] ==> Diverges(leader, follower, final - 1))
  {
    RunInv(states, steps, at);
    var s := states[at];
    assert LogOk(s.nodes[a].log, s.leaders) && LogOk(s.nodes[b].log, s.leaders);
    AnchoredOrigin(s.nodes[a].log, s.nodes[b].log, s.leaders);
    AnchoredPositive(s, s.nodes[a].log);
    AnchoredPositive(s, s.nodes[b].log);
    SettleConverges(s.nodes[a].log, s.nodes[b].log, next);
  }

  // ----- the reply handler and the follower's check are those of the probes -----

  /** What a follower that holds its whole log reports is its reply. */
  lemma ReportIsReply(follower: Log, prev: nat, prevTerm: nat, conflictIndex: nat, conflictTerm: nat)
    requires !Consistent(follower, prev, prevTerm)
    ensures Reported(follower, 0, prev, conflictIndex, conflictTerm) <==>
      Reply(follower, prev, prevTerm) == Some((conflictIndex, conflictTerm))
  {
  }

  /** A rejection that carries what the follower reports moves the next index of that peer to where the probe says,
      and changes nothing else in the cluster. */
  lemma RejectionProbes(s: State, n: nat, m: AppendMsg, follower: Log, conflictIndex: nat, conflictTerm: nat)
    requires Enabled(s, DeliverRejection(n, m, conflictIndex, conflictTerm))
    requires m.to < |s.nodes[n].leaderships[m.reign].next|
    requires var next := s.nodes[n].leaderships[m.reign].next[m.to];
      && 1 <= next <= |s.nodes[n].log| + 1
      && Reply(follower, next - 1, TermAt(s.nodes[n].log, next - 1)) == Some((conflictIndex, conflictTerm))
    ensures var s' := Next(s, DeliverRejection(n, m, conflictIndex, conflictTerm)); var v := s.nodes[n];
      var o, o' := v.leaderships[m.reign], s'.nodes[n].leaderships[m.reign];
      && Probe(v.log, follower, o.next[m.to]) == Some((o'.next[m.to], conflictTerm))
      && o' == o.(next := o.next[m.to := o'.next[m.to]])
      && s' == s.(nodes := s.nodes[n := v.(leaderships := v.leaderships[m.reign := o'])])
  {
  }

  /** With the beginning of the leader's log dropped, and the follower's boundary below the index asked about, a
      rejection still moves the next index strictly back, and not below 1. */
  lemma HeldProbeProgress(leader: Log, base: nat, follower: Log, boundary: nat, next: nat,
                          conflictIndex: nat, conflictTerm: nat)
    requires 1 <= next <= |leader| + 1 && boundary < next - 1 && boundary <= |follower|
    requires Sorted(leader) && Sorted(follower) && Positive(follower) && CommonOrigin(leader, follower)
    requires !Consistent(follower, next - 1, TermAt(leader, next - 1))
    requires Reported(follower, boundary, next - 1, conflictIndex, conflictTerm)
    ensures 1 <= BackOffHeld(leader, base, next, conflictIndex, conflictTerm) < next
  {
    var prev := next - 1;
    if prev <= |follower| {
      ReportedExact(follower, boundary, prev, conflictIndex, conflictTerm);
      LastIndexOfTermFacts(leader, conflictTerm);
      var last := LastIndexOfTerm(leader, conflictTerm);
      if last > 0 {
        SameIfBelow(leader, follower, last, prev);
      }
    }
  }

  lemma SameIfBelow(leader: Log, follower: Log, i: nat, j: nat)
    requires CommonOrigin(leader, follower) && 1 <= i <= |leader| && 1 <= j <= |follower|
    requires leader[i - 1].term == follower[j - 1].term
    ensures j <= i ==> leader[j - 1] == follower[j - 1]
  {
    if j <= i {
      SameBelow(leader, follower, i, j);
    }
  }
}
