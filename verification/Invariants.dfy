/** What every reachable state of the cluster satisfies. */
module Invariants {
  import opened Types
  import opened Logs
  import opened Quorums
  import opened Nodes
  import opened Cluster

  type Leaders = map<nat, Leadership>

  // ----- votes and elections -----

  ghost predicate VoteOk(s: State, vote: Vote) {
    && s.Has(vote.voter) && s.Has(vote.ballot.candidate) && vote.ballot in s.ballots
    && vote.ballot.term <= s.nodes[vote.voter].currentTerm
    && (vote.ballot.term == s.nodes[vote.voter].currentTerm ==>
          s.nodes[vote.voter].votedFor == Some(vote.ballot.candidate))
  }

  ghost predicate SameVote(a: Vote, b: Vote) {
    a.voter == b.voter && a.ballot.term == b.ballot.term ==> a.ballot.candidate == b.ballot.candidate
  }

  ghost predicate VotesInv(s: State) {
    && (forall vote | vote in s.votes :: VoteOk(s, vote))
    && (forall a, b | a in s.votes && b in s.votes :: SameVote(a, b))
  }

  /** No elector of the leader that wrote the last entry of the ballot's log has voted for it.  A ballot
      that names an entry of its own or a later term is of this kind, and so can never win. */
  ghost predicate Hopeless(s: State, b: Ballot) {
    b.lastTerm in s.leaders && forall q | q in s.leaders[b.lastTerm].electors :: Vote(q, b) !in s.votes
  }

  /** A ballot describes its candidate's log until somebody has won its term. */
  ghost predicate BallotOk(s: State, b: Ballot) {
    && s.Has(b.candidate) && 1 <= b.term <= s.nodes[b.candidate].currentTerm
    && (b.lastTerm < b.term || Hopeless(s, b))
    && (b.term == s.nodes[b.candidate].currentTerm && b.term !in s.leaders ==>
          b == BallotOf(b.candidate, s.nodes[b.candidate]))
  }

  ghost predicate SameBallot(a: Ballot, b: Ballot) {
    a.term == b.term && a.candidate == b.candidate ==> a == b
  }

  ghost predicate BallotsInv(s: State) {
    && (forall b | b in s.ballots :: BallotOk(s, b))
    && (forall a, b | a in s.ballots && b in s.ballots :: SameBallot(a, b))
  }

  /** Node n's votes counted so far were all cast for its ballot in its current term. */
  ghost predicate CountedOk(s: State, n: nat)
    requires s.Has(n)
  {
    var v := s.nodes[n];
    forall q | q in v.counted ::
      s.Has(q) && exists b :: b in s.ballots && b.candidate == n && b.term == v.currentTerm && Vote(q, b) in s.votes
  }

  ghost predicate CountedInv(s: State) {
    forall n | 0 <= n < |s.nodes| :: CountedOk(s, n)
  }

  // ----- leaders -----

  /** The winner's last entry, if it had one, was written by a leader that won its term earlier. */
  ghost predicate RankOk(leaders: Leaders, l: Leadership) {
    l.rank < |leaders| &&
    (l.ballot.lastTerm != 0 ==> l.ballot.lastTerm in leaders && leaders[l.ballot.lastTerm].rank < l.rank)
  }

  ghost predicate LeadershipOk(s: State, term: nat)
    requires term in s.leaders
  {
    var l := s.leaders[term];
    var id := l.ballot.candidate;
    && l.ballot.term == term && l.ballot in s.ballots && s.Has(id)
    && Quorum(l.electors, |s.nodes|)
    && (forall q | q in l.electors :: Vote(q, l.ballot) in s.votes)
    && term <= s.nodes[id].currentTerm
    && (term == s.nodes[id].currentTerm ==> s.nodes[id].log == l.log)
    && l.ballot.lastIndex < |l.log| && TermAt(l.log, l.ballot.lastIndex) == l.ballot.lastTerm
    && LastTerm(l.log) == term && l.ballot.lastTerm < term && RankOk(s.leaders, l)
  }

  ghost predicate RoleOk(s: State, n: nat)
    requires s.Has(n)
  {
    var v := s.nodes[n];
    v.role.Leader? ==>
      v.currentTerm in s.leaders && s.leaders[v.currentTerm].ballot.candidate == n && v.roleId in v.leaderships
  }

  ghost predicate LeadersInv(s: State) {
    && (forall t | t in s.leaders :: LeadershipOk(s, t))
    && (forall n | 0 <= n < |s.nodes| :: RoleOk(s, n))
  }

  // ----- logs -----

  /** Position i of a log, with everything before it, comes from the leader that wrote it. */
  ghost predicate AnchoredAt(log: Log, i: nat, leaders: Leaders)
    requires i < |log|
  {
    var t := log[i].term;
    t in leaders && i < |leaders[t].log| && log[..i + 1] == leaders[t].log[..i + 1]
  }

  ghost predicate Anchored(log: Log, leaders: Leaders) {
    forall i | 0 <= i < |log| :: AnchoredAt(log, i, leaders)
  }

  ghost predicate LogOk(log: Log, leaders: Leaders) {
    Anchored(log, leaders) && Sorted(log)
  }

  ghost predicate LogsInv(s: State) {
    && (forall n | 0 <= n < |s.nodes| :: LogOk(s.nodes[n].log, s.leaders))
    && (forall t | t in s.leaders :: LogOk(s.leaders[t].log, s.leaders) && TermsUpTo(s.leaders[t].log, t))
  }

  // ----- messages -----

  /** The request was sent while its sender led term t: it is a stretch of that term's log, or looks
      beyond it and fits nowhere. */
  ghost predicate SentIn(s: State, m: AppendMsg, t: nat) {
    && t in s.leaders && s.Has(m.from) && m.term <= t <= s.nodes[m.from].currentTerm
    && s.leaders[t].ballot.candidate == m.from
    && (Stretch(m, s.leaders[t].log) || (m.prevIndex > 0 && m.prevTerm == 0 && m.entries == []))
  }

  /** A request names a term its sender led, and was sent in that term or, by a superseded leader object,
      in a later term the sender led. */
  ghost predicate AppendOk(s: State, m: AppendMsg) {
    && m.term in s.leaders && m.from == s.leaders[m.term].ballot.candidate && m.to != m.from
    && s.Has(m.from) && m.reign <= s.nodes[m.from].roleId
    && (m.reign in s.nodes[m.from].leaderships ==> s.nodes[m.from].leaderships[m.reign].term == m.term)
    && exists t :: SentIn(s, m, t)
  }

  ghost predicate AppendsInv(s: State) {
    forall m | m in s.appends :: AppendOk(s, m)
  }

  /** An accepted request whose sender is still in its term was a stretch of that term's log. */
  ghost predicate ReplyOk(s: State, m: AppendMsg) {
    m in s.appends && s.Has(m.from) &&
    (s.nodes[m.from].currentTerm == m.term ==> Ack(m.to, m.term, m.LastIndex()) in s.acks)
  }

  ghost predicate RepliesInv(s: State) {
    forall m | m in s.replies :: ReplyOk(s, m)
  }

  ghost predicate AckOk(s: State, a: Ack) {
    && s.Has(a.node) && a.term in s.leaders && a.index <= |s.leaders[a.term].log|
    && a.term <= s.nodes[a.node].currentTerm
  }

  ghost predicate AcksInv(s: State) {
    forall a | a in s.acks :: AckOk(s, a)
  }

  /** The match indexes of a leader object of the current term are truthful: each is zero or was
      acknowledged in that term. */
  ghost predicate BookOk(s: State, n: nat, reign: nat)
    requires s.Has(n) && reign in s.nodes[n].leaderships
  {
    var v := s.nodes[n];
    var o := v.leaderships[reign];
    && reign <= v.roleId && |o.matched| == |o.next| == |s.nodes|
    && 1 <= o.term <= v.currentTerm
    && o.term in s.leaders && s.leaders[o.term].ballot.candidate == n
    && (v.role.Leader? && reign == v.roleId ==> o.term == v.currentTerm)
    && (o.term == v.currentTerm ==>
          forall p | 0 <= p < |o.matched| :: o.matched[p] == 0 || Ack(p, o.term, o.matched[p]) in s.acks)
  }

  ghost predicate BooksInv(s: State) {
    forall n, reign | 0 <= n < |s.nodes| && reign in s.nodes[n].leaderships :: BookOk(s, n, reign)
  }

  // ----- what acknowledgements and votes remember -----

  /** Some leader of a term after `from`, among the first `before` to win, does not hold the first k
      entries of `from`'s leader. */
  ghost predicate Overwritten(leaders: Leaders, from: nat, k: nat, before: nat)
    requires from in leaders
  {
    exists t :: from < t && t in leaders && leaders[t].rank < before && !Holds(leaders[t].log, leaders[from].log, k)
  }

  /** Entry k of the leader of `term` exists and was written by that leader. */
  ghost predicate OwnTermAt(leaders: Leaders, term: nat, k: nat) {
    term in leaders && 1 <= k <= |leaders[term].log| && leaders[term].log[k - 1].term == term
  }

  /** Who acknowledged entries still has the first j of them, unless a later leader without those
      has intervened. */
  ghost predicate AckKept(s: State, a: Ack, j: nat)
    requires s.Has(a.node)
  {
    OwnTermAt(s.leaders, a.term, j) ==>
      || Holds(s.nodes[a.node].log, s.leaders[a.term].log, j)
      || Overwritten(s.leaders, a.term, j, |s.leaders|)
  }

  ghost predicate KeptInv(s: State) {
    forall a, j | a in s.acks && s.Has(a.node) && 0 <= j <= a.index :: AckKept(s, a, j)
  }

  predicate AtLeast(index: nat, term: nat, ackTerm: nat, j: nat) {
    term > ackTerm || (term == ackTerm && index >= j)
  }

  /** The leaders that won before a ballot did, or all if it has not won. */
  function WonBefore(leaders: Leaders, b: Ballot): nat {
    if b.term in leaders then leaders[b.term].rank else |leaders|
  }

  /** A vote cast in a later term than an acknowledgement went to a candidate with no older a log, unless
      a leader without those entries had won before.  Votes that did not elect are free. */
  ghost predicate VoteRemembers(leaders: Leaders, vote: Vote, a: Ack, j: nat) {
    var b := vote.ballot;
    (OwnTermAt(leaders, a.term, j) && vote.voter == a.node && a.term < b.term &&
     (b.term in leaders ==> vote.voter in leaders[b.term].electors)) ==>
      AtLeast(b.lastIndex, b.lastTerm, a.term, j) || Overwritten(leaders, a.term, j, WonBefore(leaders, b))
  }

  ghost predicate RemembersInv(s: State) {
    forall vote, a, j | vote in s.votes && a in s.acks && 0 <= j <= a.index :: VoteRemembers(s.leaders, vote, a, j)
  }

  // ----- commitment -----

  /** Node q acknowledged at least the first k entries of the leader of `term`. */
  ghost predicate Acked(s: State, q: nat, term: nat, k: nat) {
    exists a :: a in s.acks && a.node == q && a.term == term && a.index >= k
  }

  ghost predicate AckedByAll(s: State, q: set<nat>, term: nat, k: nat) {
    Quorum(q, |s.nodes|) && forall p | p in q :: Acked(s, p, term, k)
  }

  /** The first k entries of `term`'s leader are on a majority, and the last of them is its own. */
  ghost predicate Chosen(s: State, term: nat, k: nat) {
    && OwnTermAt(s.leaders, term, k)
    && exists q :: AckedByAll(s, q, term, k)
  }

  ghost predicate Inv(s: State) {
    && VotesInv(s) && BallotsInv(s) && CountedInv(s) && LeadersInv(s) && LogsInv(s)
    && AppendsInv(s) && RepliesInv(s) && AcksInv(s) && BooksInv(s) && KeptInv(s) && RemembersInv(s)
  }
}
