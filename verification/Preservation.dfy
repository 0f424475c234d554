/** Every step keeps the invariants.  The handlers are cut into the few kinds of change they are made of. */
module Preservation {
  import opened Types
  import opened Logs
  import opened Quorums
  import opened Nodes
  import opened Cluster
  import opened Invariants
  import opened Growth
  import opened CommitCap
  import Commitment

  // ----- changes that leave every log, every leader and every acknowledgement alone -----

  /** The node's log is the same, and it does not become leader. */
  ghost predicate QuietNode(v: Node, v': Node) {
    && v'.log == v.log && v.roleId <= v'.roleId && v.currentTerm <= v'.currentTerm
    && (forall r | r in v'.leaderships :: r in v.leaderships && v'.leaderships[r].term == v.leaderships[r].term)
    && (v'.role.Leader? ==>
          v.role.Leader? && v'.currentTerm == v.currentTerm && v'.roleId == v.roleId &&
          v'.leaderships.Keys == v.leaderships.Keys)
  }

  ghost predicate Quiet(s: State, s': State) {
    && |s'.nodes| == |s.nodes| && s.ballots <= s'.ballots && s.votes <= s'.votes
    && s' == s.(nodes := s'.nodes, ballots := s'.ballots, votes := s'.votes)
    && forall i | 0 <= i < |s.nodes| :: QuietNode(s.nodes[i], s'.nodes[i])
  }

  lemma SentStill(s: State, s': State, m: AppendMsg)
    requires Grows(s, s') && AppendOk(s, m)
    requires m.from < |s.nodes| ==> s.nodes[m.from].roleId <= s'.nodes[m.from].roleId
    requires s.Has(m.from) && m.reign in s'.nodes[m.from].leaderships ==>
      if m.reign in s.nodes[m.from].leaderships
      then s'.nodes[m.from].leaderships[m.reign].term == s.nodes[m.from].leaderships[m.reign].term
      else m.reign > s.nodes[m.from].roleId
    ensures AppendOk(s', m)
  {
    var t :| SentIn(s, m, t);
    var before, after := s.leaders[t].log, s'.leaders[t].log;
    if Stretch(m, before) {
      assert after[m.prevIndex..m.LastIndex()] == before[m.prevIndex..m.LastIndex()];
    }
    assert SentIn(s', m, t);
  }

  lemma RepliedStill(s: State, s': State, m: AppendMsg)
    requires Grows(s, s') && AppendOk(s, m) && ReplyOk(s, m)
    ensures ReplyOk(s', m)
  {
    var t :| SentIn(s, m, t);
  }

  lemma QuietGrows(s: State, s': State)
    requires Quiet(s, s')
    ensures Grows(s, s')
  {
    forall i | 0 <= i < |s.nodes| ensures s.nodes[i].currentTerm <= s'.nodes[i].currentTerm {
      assert QuietNode(s.nodes[i], s'.nodes[i]);
    }
  }

  lemma QuietLogs(s: State, s': State)
    requires LogsInv(s) && AcksInv(s) && Quiet(s, s')
    ensures LogsInv(s') && AcksInv(s')
  {
    forall i | 0 <= i < |s'.nodes| ensures LogOk(s'.nodes[i].log, s'.leaders) {
      assert QuietNode(s.nodes[i], s'.nodes[i]) && LogOk(s.nodes[i].log, s.leaders);
    }
    forall a | a in s'.acks ensures AckOk(s', a) {
      assert AckOk(s, a) && QuietNode(s.nodes[a.node], s'.nodes[a.node]);
    }
  }

  lemma QuietLeaders(s: State, s': State)
    requires LeadersInv(s) && Quiet(s, s')
    ensures LeadersInv(s')
  {
    forall i | 0 <= i < |s'.nodes| ensures RoleOk(s', i) {
      assert QuietNode(s.nodes[i], s'.nodes[i]) && RoleOk(s, i);
    }
    forall t | t in s'.leaders ensures LeadershipOk(s', t) {
      assert LeadershipOk(s, t);
    }
  }

  lemma QuietRest(s: State, s': State)
    requires AppendsInv(s) && RepliesInv(s) && AcksInv(s) && KeptInv(s) && Quiet(s, s') && Grows(s, s')
    ensures AppendsInv(s') && RepliesInv(s') && KeptInv(s')
  {
    forall m | m in s'.appends ensures AppendOk(s', m) {
      assert AppendOk(s, m) && QuietNode(s.nodes[m.from], s'.nodes[m.from]);
      SentStill(s, s', m);
    }
    forall m | m in s'.replies ensures ReplyOk(s', m) {
      assert ReplyOk(s, m) && AppendOk(s, m);
      RepliedStill(s, s', m);
    }
    forall a, j | a in s'.acks && 0 <= j <= a.index ensures AckKept(s', a, j) {
      assert AckOk(s, a) && AckKept(s, a, j);
    }
  }

  /** No leader object learns of an acknowledgement. */
  ghost predicate SameBooks(v: Node, v': Node) {
    QuietNode(v, v') && forall r | r in v'.leaderships ::
      v'.leaderships[r].matched == v.leaderships[r].matched && |v'.leaderships[r].next| == |v.leaderships[r].next|
  }

  lemma QuietBooks(s: State, s': State)
    requires BooksInv(s) && Quiet(s, s')
    requires forall i | 0 <= i < |s.nodes| :: SameBooks(s.nodes[i], s'.nodes[i])
    ensures BooksInv(s')
  {
    forall i, r | 0 <= i < |s'.nodes| && r in s'.nodes[i].leaderships ensures BookOk(s', i, r) {
      assert SameBooks(s.nodes[i], s'.nodes[i]) && BookOk(s, i, r);
    }
  }

  /** A quiet change needs only its votes and books looked at. */
  lemma QuietInv(s: State, s': State)
    requires Inv(s) && Quiet(s, s') && VotesInv(s') && BallotsInv(s') && CountedInv(s')
    requires RemembersInv(s') && BooksInv(s')
    ensures Inv(s') && Grows(s, s')
  {
    QuietGrows(s, s');
    QuietLogs(s, s');
    QuietLeaders(s, s');
    QuietRest(s, s');
  }

  /** Within a term, the vote stays and no vote is newly counted; a new term starts with none counted. */
  predicate SameVotes(v: Node, v': Node) {
    if v.currentTerm == v'.currentTerm then v'.votedFor == v.votedFor && v'.counted <= v.counted
    else v.currentTerm < v'.currentTerm && v'.counted == {}
  }

  lemma QuietVotes(s: State, s': State)
    requires VotesInv(s) && BallotsInv(s) && CountedInv(s) && RemembersInv(s) && Quiet(s, s')
    requires s'.votes == s.votes && s'.ballots == s.ballots
    requires forall i | 0 <= i < |s.nodes| :: SameVotes(s.nodes[i], s'.nodes[i])
    ensures VotesInv(s') && BallotsInv(s') && CountedInv(s') && RemembersInv(s')
  {
    forall i | 0 <= i < |s'.nodes| ensures CountedOk(s', i) {
      assert SameVotes(s.nodes[i], s'.nodes[i]) && CountedOk(s, i);
    }
    forall vote | vote in s'.votes ensures VoteOk(s', vote) {
      assert VoteOk(s, vote) && SameVotes(s.nodes[vote.voter], s'.nodes[vote.voter]);
    }
    forall b | b in s'.ballots ensures BallotOk(s', b) {
      assert BallotOk(s, b) && QuietNode(s.nodes[b.candidate], s'.nodes[b.candidate]);
    }
    SameRemembers(s, s');
  }

  // ----- a node's own change: time-outs, stepping down, restarts, bookkeeping, applying -----

  ghost predicate LocalChange(v: Node, v': Node) {
    SameBooks(v, v') && SameVotes(v, v')
  }

  lemma LocalInv(s: State, n: nat, v: Node)
    requires Inv(s) && s.Has(n) && LocalChange(s.nodes[n], v)
    ensures Inv(s.With(n, v)) && Grows(s, s.With(n, v))
  {
    var s' := s.With(n, v);
    LocalQuiet(s, n, v);
    QuietVotes(s, s');
    QuietBooks(s, s');
    QuietInv(s, s');
  }

  lemma LocalQuiet(s: State, n: nat, v: Node)
    requires s.Has(n) && LocalChange(s.nodes[n], v)
    ensures var s' := s.With(n, v);
      Quiet(s, s') && forall i | 0 <= i < |s.nodes| ::
        SameVotes(s.nodes[i], s'.nodes[i]) && SameBooks(s.nodes[i], s'.nodes[i])
  {
  }

  // ----- a candidate counts a vote -----

  ghost predicate MayCount(s: State, n: nat, vote: Vote) {
    && s.Has(n) && vote in s.votes && vote.ballot.candidate == n && vote.ballot.term == s.nodes[n].currentTerm
  }

  lemma CountVotes(s: State, n: nat, vote: Vote)
    requires VotesInv(s) && BallotsInv(s) && CountedInv(s) && MayCount(s, n, vote)
    ensures var s' := CountVote(s, n, vote); VotesInv(s') && BallotsInv(s') && CountedInv(s')
  {
    var s' := CountVote(s, n, vote);
    assert VoteOk(s, vote);
    forall i | 0 <= i < |s'.nodes| ensures CountedOk(s', i) {
      assert CountedOk(s, i);
    }
    forall b | b in s'.ballots ensures BallotOk(s', b) {
      assert BallotOk(s, b);
    }
  }

  /** No vote and no acknowledgement is new. */
  lemma SameRemembers(s: State, s': State)
    requires RemembersInv(s) && s'.votes == s.votes && s'.acks == s.acks && s'.leaders == s.leaders
    ensures RemembersInv(s')
  {
    forall vote, a, j | vote in s'.votes && a in s'.acks && 0 <= j <= a.index
      ensures VoteRemembers(s'.leaders, vote, a, j)
    {
      assert VoteRemembers(s.leaders, vote, a, j);
    }
  }

  lemma CountInv(s: State, n: nat, vote: Vote)
    requires Inv(s) && MayCount(s, n, vote)
    ensures Inv(CountVote(s, n, vote)) && Grows(s, CountVote(s, n, vote))
  {
    var s' := CountVote(s, n, vote);
    CountVotes(s, n, vote);
    SameRemembers(s, s');
    QuietBooks(s, s');
    QuietInv(s, s');
  }

  // ----- votes are cast: a candidate's own, or a follower's -----

  /** A log that holds acknowledged entries is no older than they are. */
  lemma HoldsAtLeast(log: Log, leaders: Leaders, term: nat, j: nat)
    requires OwnTermAt(leaders, term, j) && Sorted(log) && Holds(log, leaders[term].log, j)
    ensures AtLeast(|log|, LastTerm(log), term, j)
  {
    assert log[j - 1] == log[..j][j - 1] == leaders[term].log[j - 1];
  }

  /** A vote cast in a term nobody has won, on a log no newer than the ballot says. */
  lemma NewVoteRemembers(s: State, vote: Vote, a: Ack, j: nat)
    requires LogsInv(s) && KeptInv(s) && a in s.acks && s.Has(vote.voter) && j <= a.index
    requires var v := s.nodes[vote.voter]; var b := vote.ballot;
      UpToDate(v.log, b.lastIndex, b.lastTerm) && b.term !in s.leaders
    ensures VoteRemembers(s.leaders, vote, a, j)
  {
    var b := vote.ballot;
    if OwnTermAt(s.leaders, a.term, j) && a.node == vote.voter {
      var v := s.nodes[a.node];
      assert AckKept(s, a, j);
      if Holds(v.log, s.leaders[a.term].log, j) {
        HoldsAtLeast(v.log, s.leaders, a.term, j);
      }
    }
  }

  /** A new ballot that names an entry of its own term or a later one is hopeless: a majority has moved on. */
  lemma OpenHopeless(s: State, n: nat)
    requires VotesInv(s) && BallotsInv(s) && LeadersInv(s) && LogsInv(s) && s.Has(n)
    ensures var s' := Open(s, n); var b := BallotOf(n, s'.nodes[n]); b.lastTerm < b.term || Hopeless(s', b)
  {
    if LastTerm(s.nodes[n].log) > s.nodes[n].currentTerm {
      LastWritten(s, n);
      OpenElectors(s, n, LastTerm(s.nodes[n].log));
    }
  }

  lemma LastWritten(s: State, n: nat)
    requires LeadersInv(s) && LogsInv(s) && s.Has(n) && s.nodes[n].log != []
    ensures var term := LastTerm(s.nodes[n].log); term in s.leaders && LeadershipOk(s, term)
  {
    var log := s.nodes[n].log;
    assert LogOk(log, s.leaders) && AnchoredAt(log, |log| - 1, s.leaders);
    assert LeadershipOk(s, LastTerm(log));
  }

  lemma OpenElectors(s: State, n: nat, term: nat)
    requires VotesInv(s) && BallotsInv(s) && s.Has(n)
    requires term in s.leaders && LeadershipOk(s, term) && term > s.nodes[n].currentTerm
    ensures var s' := Open(s, n); var b := BallotOf(n, s'.nodes[n]);
      s'.leaders == s.leaders && forall q | q in s.leaders[term].electors :: Vote(q, b) !in s'.votes
  {
    forall q | q in s.leaders[term].electors
      ensures Vote(q, BallotOf(n, OpenTerm(n, s.nodes[n]))) !in Open(s, n).votes
    {
      ElectorElsewhere(s, n, term, q);
      BallotUnused(s, n, q);
    }
  }

  lemma ElectorElsewhere(s: State, n: nat, term: nat, q: nat)
    requires VotesInv(s) && s.Has(n) && term in s.leaders && LeadershipOk(s, term) && q in s.leaders[term].electors
    requires term > s.nodes[n].currentTerm
    ensures q != n
  {
    assert VoteOk(s, Vote(q, s.leaders[term].ballot));
  }

  /** Nobody has voted yet for the ballot a node is about to cast. */
  lemma BallotUnused(s: State, n: nat, q: nat)
    requires VotesInv(s) && BallotsInv(s) && s.Has(n)
    ensures Vote(q, BallotOf(n, OpenTerm(n, s.nodes[n]))) !in s.votes
  {
    var b := BallotOf(n, OpenTerm(n, s.nodes[n]));
    assert Vote(q, b) in s.votes ==> VoteOk(s, Vote(q, b)) && BallotOk(s, b);
  }

  lemma OpenBallots(s: State, n: nat)
    requires VotesInv(s) && BallotsInv(s) && s.Has(n)
    requires var s' := Open(s, n); var b := BallotOf(n, s'.nodes[n]); b.lastTerm < b.term || Hopeless(s', b)
    ensures BallotsInv(Open(s, n))
  {
    var s' := Open(s, n);
    forall x | x in s'.ballots ensures BallotOk(s', x) {
      if x in s.ballots {
        assert BallotOk(s, x);
      }
    }
  }

  lemma OpenVotes(s: State, n: nat)
    requires VotesInv(s) && BallotsInv(s) && CountedInv(s) && s.Has(n)
    ensures VotesInv(Open(s, n)) && CountedInv(Open(s, n))
  {
    var s' := Open(s, n);
    var b := BallotOf(n, s'.nodes[n]);
    assert b in s'.ballots && Vote(n, b) in s'.votes;
    forall i | 0 <= i < |s'.nodes| ensures CountedOk(s', i) {
      assert CountedOk(s, i);
    }
  }

  lemma OpenUnelected(s: State, n: nat)
    requires VotesInv(s) && LeadersInv(s) && s.Has(n)
    ensures var term := s.nodes[n].currentTerm + 1; term in s.leaders ==> n !in s.leaders[term].electors
  {
    var term := s.nodes[n].currentTerm + 1;
    if term in s.leaders {
      assert LeadershipOk(s, term);
      assert n in s.leaders[term].electors ==> VoteOk(s, Vote(n, s.leaders[term].ballot));
    }
  }

  lemma OpenRemembers(s: State, n: nat)
    requires VotesInv(s) && LeadersInv(s) && LogsInv(s) && KeptInv(s) && RemembersInv(s) && s.Has(n)
    ensures RemembersInv(Open(s, n))
  {
    var s' := Open(s, n);
    OpenUnelected(s, n);
    forall vote, a, j | vote in s'.votes && a in s'.acks && 0 <= j <= a.index
      ensures VoteRemembers(s'.leaders, vote, a, j)
    {
      if vote in s.votes {
        assert VoteRemembers(s.leaders, vote, a, j);
      } else if vote.ballot.term !in s.leaders {
        NewVoteRemembers(s, vote, a, j);
      }
    }
  }

  lemma OpenInv(s: State, n: nat)
    requires Inv(s) && s.Has(n) && !s.nodes[n].role.Leader?
    ensures Inv(Open(s, n)) && Grows(s, Open(s, n))
  {
    var s' := Open(s, n);
    OpenVotes(s, n);
    OpenHopeless(s, n);
    OpenBallots(s, n);
    OpenRemembers(s, n);
    QuietBooks(s, s');
    QuietInv(s, s');
  }

  ghost predicate MayCast(s: State, n: nat, b: Ballot) {
    && s.Has(n) && b in s.ballots
    && var v := s.nodes[n];
       v.role.Follower? && v.currentTerm == b.term && UpToDate(v.log, b.lastIndex, b.lastTerm)
       && (v.votedFor == None || v.votedFor == Some(b.candidate))
  }

  function Cast(s: State, n: nat, b: Ballot): State
    requires s.Has(n)
  {
    s.With(n, s.nodes[n].(votedFor := Some(b.candidate))).(votes := s.votes + {Vote(n, b)})
  }

  /** Nobody casts a vote that would make a hopeless ballot less so. */
  lemma CastHopeless(s: State, n: nat, b: Ballot)
    requires VotesInv(s) && BallotsInv(s) && LeadersInv(s) && MayCast(s, n, b) && b.lastTerm >= b.term
    ensures Hopeless(Cast(s, n, b), b)
  {
    assert BallotOk(s, b) && LeadershipOk(s, b.lastTerm);
    var won := s.leaders[b.lastTerm];
    assert SameBallot(won.ballot, b);
    assert n in won.electors ==> VoteOk(s, Vote(n, won.ballot));
  }

  lemma CastVotes(s: State, n: nat, b: Ballot)
    requires VotesInv(s) && BallotsInv(s) && CountedInv(s) && LeadersInv(s) && MayCast(s, n, b)
    ensures var s' := Cast(s, n, b); VotesInv(s') && BallotsInv(s') && CountedInv(s')
  {
    var s' := Cast(s, n, b);
    forall x | x in s'.ballots ensures BallotOk(s', x) {
      assert BallotOk(s, x);
      if x == b && b.lastTerm >= b.term {
        CastHopeless(s, n, b);
      }
    }
    forall i | 0 <= i < |s'.nodes| ensures CountedOk(s', i) {
      assert CountedOk(s, i);
    }
  }

  /** A voter that helped to win a term can only have repeated that vote. */
  lemma ElectorRepeats(s: State, n: nat, b: Ballot)
    requires Inv(s) && MayCast(s, n, b) && b.term in s.leaders && n in s.leaders[b.term].electors
    ensures Vote(n, b) in s.votes
  {
    var won := s.leaders[b.term].ballot;
    assert LeadershipOk(s, b.term) && VoteOk(s, Vote(n, won));
    assert SameBallot(won, b);
  }

  lemma CastRemembers(s: State, n: nat, b: Ballot)
    requires LogsInv(s) && KeptInv(s) && RemembersInv(s) && MayCast(s, n, b)
    requires b.term in s.leaders && n in s.leaders[b.term].electors ==> Vote(n, b) in s.votes
    ensures RemembersInv(Cast(s, n, b))
  {
    var s' := Cast(s, n, b);
    forall vote, a, j | vote in s'.votes && a in s'.acks && 0 <= j <= a.index
      ensures VoteRemembers(s'.leaders, vote, a, j)
    {
      if vote in s.votes {
        assert VoteRemembers(s.leaders, vote, a, j);
      } else if b.term !in s.leaders {
        NewVoteRemembers(s, vote, a, j);
      }
    }
  }

  lemma CastInv(s: State, n: nat, b: Ballot)
    requires Inv(s) && MayCast(s, n, b)
    ensures Inv(Cast(s, n, b)) && Grows(s, Cast(s, n, b))
  {
    var s' := Cast(s, n, b);
    CastVotes(s, n, b);
    if b.term in s.leaders && n in s.leaders[b.term].electors {
      ElectorRepeats(s, n, b);
    }
    CastRemembers(s, n, b);
    QuietBooks(s, s');
    QuietInv(s, s');
  }

  // ----- a leader appends to its own log -----

  /** Node n leads its term, perhaps from this very step, and its log gains one entry of that term. */
  ghost predicate LeaderWrote(s: State, s': State, n: nat) {
    && s.Has(n) && |s'.nodes| == |s.nodes|
    && var v := s.nodes[n]; var v' := s'.nodes[n]; var term := v.currentTerm;
       && s'.nodes == s.nodes[n := v']
       && s' == s.(nodes := s'.nodes, leaders := s'.leaders, acks := s.acks + {Ack(n, term, |v'.log|)})
       && |v'.log| == |v.log| + 1 && v'.log[..|v.log|] == v.log && v'.log[|v.log|].term == term
       && v'.currentTerm == term && v'.votedFor == v.votedFor && v'.counted == v.counted
       && v'.role.Leader? && v.roleId <= v'.roleId
       && term in s'.leaders && s'.leaders == s.leaders[term := s'.leaders[term]]
       && s'.leaders[term].log == v'.log && s'.leaders[term].ballot.candidate == n
       && (if term in s.leaders
           then s'.leaders[term] == s.leaders[term].(log := v'.log)
           else Wins(s, n, s'.leaders[term]))
  }

  /** The leadership is new and rests on a majority of votes for the ballot that describes n's log. */
  ghost predicate Wins(s: State, n: nat, l: Leadership)
    requires s.Has(n)
  {
    && l.ballot in s.ballots && l.ballot == BallotOf(n, s.nodes[n]) && l.ballot.lastTerm < l.ballot.term
    && l.rank == |s.leaders|
    && Quorum(l.electors, |s.nodes|) && forall q | q in l.electors :: Vote(q, l.ballot) in s.votes
  }

  lemma WroteGrows(s: State, s': State, n: nat)
    requires LeadersInv(s) && LeaderWrote(s, s', n)
    ensures Grows(s, s')
  {
    var term := s.nodes[n].currentTerm;
    if term in s.leaders {
      assert LeadershipOk(s, term);
    }
  }

  lemma WroteElections(s: State, s': State, n: nat)
    requires VotesInv(s) && BallotsInv(s) && CountedInv(s) && LeaderWrote(s, s', n) && Grows(s, s')
    ensures VotesInv(s') && BallotsInv(s') && CountedInv(s')
  {
    forall i | 0 <= i < |s'.nodes| ensures CountedOk(s', i) {
      assert CountedOk(s, i);
    }
    forall b | b in s'.ballots ensures BallotOk(s', b) {
      assert BallotOk(s, b);
    }
  }

  lemma WroteNewLeader(s: State, s': State, n: nat)
    requires LeadersInv(s) && LogsInv(s) && LeaderWrote(s, s', n) && s.nodes[n].currentTerm !in s.leaders
    ensures LeadershipOk(s', s.nodes[n].currentTerm)
  {
    if s.nodes[n].log != [] {
      LastWritten(s, n);
      WroteRanked(s, s', n);
    }
    WroteEnds(s, s', n);
  }

  lemma WroteRanked(s: State, s': State, n: nat)
    requires LeaderWrote(s, s', n) && s.nodes[n].currentTerm !in s.leaders && s.nodes[n].log != []
    requires var term := LastTerm(s.nodes[n].log); term in s.leaders && LeadershipOk(s, term)
    ensures var term := s.nodes[n].currentTerm; RankOk(s'.leaders, s'.leaders[term])
  {
  }

  lemma WroteEnds(s: State, s': State, n: nat)
    requires LeaderWrote(s, s', n) && s.nodes[n].currentTerm !in s.leaders
    ensures var l := s'.leaders[s.nodes[n].currentTerm];
      && l.ballot.lastIndex < |l.log| && TermAt(l.log, l.ballot.lastIndex) == l.ballot.lastTerm
      && LastTerm(l.log) == s.nodes[n].currentTerm
  {
  }

  lemma WroteOldLeader(s: State, s': State, n: nat, t: nat)
    requires LeaderWrote(s, s', n) && Grows(s, s') && t in s.leaders && LeadershipOk(s, t)
    ensures LeadershipOk(s', t)
  {
    assert t in s'.leaders;
    var before, after := s.leaders[t], s'.leaders[t];
    var k := before.ballot.lastIndex;
    assert |before.log| <= |after.log| && TermAt(after.log, k) == TermAt(before.log, k);
  }

  lemma WroteLeaders(s: State, s': State, n: nat)
    requires LeadersInv(s) && LogsInv(s) && LeaderWrote(s, s', n) && Grows(s, s')
    requires s'.nodes[n].roleId in s'.nodes[n].leaderships
    ensures LeadersInv(s')
  {
    forall i | 0 <= i < |s'.nodes| ensures RoleOk(s', i) {
      assert RoleOk(s, i);
    }
    forall t | t in s'.leaders ensures LeadershipOk(s', t) {
      if t in s.leaders {
        assert LeadershipOk(s, t);
        WroteOldLeader(s, s', n, t);
      } else {
        WroteNewLeader(s, s', n);
      }
    }
  }

  lemma TermsFromLast(log: Log, leaders: Leaders, term: nat)
    requires LogOk(log, leaders) && LastTerm(log) <= term && forall t | t in leaders :: t >= 1
    ensures TermsUpTo(log, term)
  {
    forall i | 0 <= i < |log| ensures 1 <= log[i].term <= term {
      assert AnchoredAt(log, i, leaders);
    }
  }

  /** The log a leader adds to has no term above its own. */
  lemma WroteTerms(s: State, s': State, n: nat)
    requires LeadersInv(s) && LogsInv(s) && LeaderWrote(s, s', n)
    ensures TermsUpTo(s.nodes[n].log, s.nodes[n].currentTerm) && s.nodes[n].currentTerm >= 1
  {
    var v := s.nodes[n];
    assert LogOk(v.log, s.leaders);
    forall t | t in s.leaders ensures t >= 1 {
      assert LeadershipOk(s, t);
    }
    TermsFromLast(v.log, s.leaders, v.currentTerm);
  }

  lemma WroteOwnLog(s: State, s': State, n: nat)
    requires LeaderWrote(s, s', n) && Grows(s, s') && LogOk(s.nodes[n].log, s.leaders)
    requires TermsUpTo(s.nodes[n].log, s.nodes[n].currentTerm) && s.nodes[n].currentTerm >= 1
    ensures LogOk(s'.nodes[n].log, s'.leaders) && TermsUpTo(s'.nodes[n].log, s.nodes[n].currentTerm)
  {
    var log, log' := s.nodes[n].log, s'.nodes[n].log;
    AnchoredGrows(log, s.leaders, s'.leaders);
    assert forall i | 0 <= i < |log| :: log'[i] == log'[..|log|][i];
    forall i | 0 <= i < |log'| ensures AnchoredAt(log', i, s'.leaders) {
      if i < |log| {
        assert AnchoredAt(log, i, s'.leaders);
        assert log'[..i + 1] == log[..i + 1];
      }
    }
  }

  lemma WroteLogs(s: State, s': State, n: nat)
    requires LeadersInv(s) && LogsInv(s) && LeaderWrote(s, s', n) && Grows(s, s')
    ensures LogsInv(s')
  {
    var term := s.nodes[n].currentTerm;
    WroteTerms(s, s', n);
    assert LogOk(s.nodes[n].log, s.leaders);
    WroteOwnLog(s, s', n);
    forall i | 0 <= i < |s'.nodes| ensures LogOk(s'.nodes[i].log, s'.leaders) {
      if i != n {
        assert LogOk(s.nodes[i].log, s.leaders);
        AnchoredGrows(s.nodes[i].log, s.leaders, s'.leaders);
      }
    }
    forall t | t in s'.leaders ensures LogOk(s'.leaders[t].log, s'.leaders) && TermsUpTo(s'.leaders[t].log, t) {
      if t != term {
        assert LogOk(s.leaders[t].log, s.leaders);
        AnchoredGrows(s.leaders[t].log, s.leaders, s'.leaders);
      }
    }
  }

  /** An acknowledgement survives where its node's log only grew. */
  lemma StillKept(s: State, s': State, a: Ack, j: nat)
    requires LeadersInv(s) && Grows(s, s') && LogsInv(s') && AckOk(s, a) && j <= a.index && AckKept(s, a, j)
    requires s.nodes[a.node].log <= s'.nodes[a.node].log
    ensures AckKept(s', a, j)
  {
    if OwnTermAt(s'.leaders, a.term, j) {
      var before, after := s.leaders[a.term].log, s'.leaders[a.term].log;
      assert before[j - 1] == after[j - 1];
      var log, log' := s.nodes[a.node].log, s'.nodes[a.node].log;
      if Holds(log, before, j) {
        assert log'[..j] == log[..j] == before[..j] == after[..j];
      } else {
        StillOverwritten(s, s', a.term, j, |s.leaders|, |s'.leaders|);
      }
    }
  }

  lemma WroteAcks(s: State, s': State, n: nat)
    requires LeadersInv(s) && AcksInv(s) && LeaderWrote(s, s', n) && Grows(s, s')
    ensures AcksInv(s')
  {
    forall a | a in s'.acks ensures AckOk(s', a) {
      assert a in s.acks ==> AckOk(s, a);
    }
  }

  lemma WroteKept(s: State, s': State, n: nat)
    requires LeadersInv(s) && AcksInv(s) && KeptInv(s) && LeaderWrote(s, s', n) && Grows(s, s') && LogsInv(s')
    ensures KeptInv(s')
  {
    assert s.nodes[n].log <= s'.nodes[n].log;
    forall a, j | a in s'.acks && 0 <= j <= a.index && s'.Has(a.node) ensures AckKept(s', a, j) {
      if a in s.acks {
        assert AckOk(s, a) && AckKept(s, a, j);
        StillKept(s, s', a, j);
      } else {
        WroteNewAck(s', n, a, j);
      }
    }
  }

  lemma WroteNewAck(s: State, n: nat, a: Ack, j: nat)
    requires s.Has(n) && a.node == n && a.term in s.leaders && s.leaders[a.term].log == s.nodes[n].log
    ensures AckKept(s, a, j)
  {
  }

  lemma StillOverwritten(s: State, s': State, from: nat, k: nat, before: nat, before': nat)
    requires LeadersInv(s) && Grows(s, s') && LogsInv(s') && before <= before'
    requires OwnTermAt(s.leaders, from, k) && Overwritten(s.leaders, from, k, before)
    ensures Overwritten(s'.leaders, from, k, before')
  {
    forall t | t in s.leaders ensures LastTerm(s.leaders[t].log) == t && Sorted(s'.leaders[t].log) {
      assert LeadershipOk(s, t);
      assert LogOk(s'.leaders[t].log, s'.leaders);
    }
    OverwrittenGrows(s.leaders, s'.leaders, from, k, before, before');
  }

  /** A term won after s was won by more leaders than there were in s. */
  ghost predicate NewerRank(s: State, s': State) {
    forall t | t in s'.leaders && t !in s.leaders :: s'.leaders[t].rank >= |s.leaders|
  }

  lemma StillRemembers(s: State, s': State, vote: Vote, a: Ack, j: nat)
    requires LeadersInv(s) && Grows(s, s') && LogsInv(s') && NewerRank(s, s')
    requires AckOk(s, a) && j <= a.index && VoteRemembers(s.leaders, vote, a, j)
    ensures VoteRemembers(s'.leaders, vote, a, j)
  {
    var b := vote.ballot;
    if OwnTermAt(s'.leaders, a.term, j) && vote.voter == a.node && a.term < b.term &&
       (b.term in s'.leaders ==> vote.voter in s'.leaders[b.term].electors) {
      assert s.leaders[a.term].log[j - 1] == s'.leaders[a.term].log[j - 1];
      if !AtLeast(b.lastIndex, b.lastTerm, a.term, j) {
        StillOverwritten(s, s', a.term, j, WonBefore(s.leaders, b), WonBefore(s'.leaders, b));
      }
    }
  }

  lemma WroteRemembersOne(s: State, s': State, n: nat, vote: Vote, a: Ack, j: nat)
    requires LeadersInv(s) && LeaderWrote(s, s', n) && Grows(s, s') && LogsInv(s') && VoteOk(s, vote) && j <= a.index
    requires if a in s.acks then AckOk(s, a) && VoteRemembers(s.leaders, vote, a, j)
             else a == Ack(n, s.nodes[n].currentTerm, a.index)
    ensures VoteRemembers(s'.leaders, vote, a, j)
  {
    if a in s.acks {
      StillRemembers(s, s', vote, a, j);
    }
  }

  lemma WroteRemembers(s: State, s': State, n: nat)
    requires LeadersInv(s) && VotesInv(s) && AcksInv(s) && RemembersInv(s) && LeaderWrote(s, s', n) && Grows(s, s')
    requires LogsInv(s')
    ensures RemembersInv(s')
  {
    forall vote, a, j | vote in s'.votes && a in s'.acks && 0 <= j <= a.index
      ensures VoteRemembers(s'.leaders, vote, a, j)
    {
      assert VoteOk(s, vote);
      if a in s.acks {
        assert AckOk(s, a) && VoteRemembers(s.leaders, vote, a, j);
      }
      WroteRemembersOne(s, s', n, vote, a, j);
    }
  }

  lemma WroteRest(s: State, s': State, n: nat)
    requires AppendsInv(s) && RepliesInv(s) && LeaderWrote(s, s', n) && Grows(s, s')
    requires forall r | r in s'.nodes[n].leaderships ::
               if r in s.nodes[n].leaderships then s'.nodes[n].leaderships[r].term == s.nodes[n].leaderships[r].term
               else r > s.nodes[n].roleId
    ensures AppendsInv(s') && RepliesInv(s')
  {
    forall m | m in s'.appends ensures AppendOk(s', m) {
      assert AppendOk(s, m);
      SentStill(s, s', m);
    }
    forall m | m in s'.replies ensures ReplyOk(s', m) {
      assert ReplyOk(s, m) && AppendOk(s, m);
      RepliedStill(s, s', m);
    }
  }

  /** What is left to check of an appending leader is its books. */
  lemma WroteInv(s: State, s': State, n: nat)
    requires Inv(s) && LeaderWrote(s, s', n) && BooksInv(s')
    requires s'.nodes[n].roleId in s'.nodes[n].leaderships
    requires forall r | r in s'.nodes[n].leaderships ::
               if r in s.nodes[n].leaderships then s'.nodes[n].leaderships[r].term == s.nodes[n].leaderships[r].term
               else r > s.nodes[n].roleId
    ensures Inv(s') && Grows(s, s')
  {
    WroteGrows(s, s', n);
    WroteElections(s, s', n);
    WroteLeaders(s, s', n);
    WroteLogs(s, s', n);
    WroteAcks(s, s', n);
    WroteKept(s, s', n);
    WroteRemembers(s, s', n);
    WroteRest(s, s', n);
  }

  /** A majority of counted votes elects: in a term already won only the same node can win again, and
      otherwise the ballot still describes the node's log and names no term as high as its own. */
  lemma CountedWin(s: State, n: nat, b: Ballot)
    requires VotesInv(s) && BallotsInv(s) && CountedInv(s) && LeadersInv(s)
    requires s.Has(n) && b in s.ballots && b.candidate == n && b.term == s.nodes[n].currentTerm
    requires |s.nodes[n].counted| >= Majority(|s.nodes|)
    ensures if b.term in s.leaders then s.leaders[b.term].ballot.candidate == n
            else Wins(s, n, Leadership(b, s.nodes[n].counted, [], |s.leaders|))
  {
    var counted := s.nodes[n].counted;
    assert CountedOk(s, n) && BallotOk(s, b);
    forall q | q in counted ensures Vote(q, b) in s.votes {
      var b' :| b' in s.ballots && b'.candidate == n && b'.term == b.term && Vote(q, b') in s.votes;
      assert SameBallot(b, b');
    }
    if b.term in s.leaders {
      var won := s.leaders[b.term];
      assert LeadershipOk(s, b.term);
      var q := QuorumsMeet(counted, won.electors, |s.nodes|);
      assert SameVote(Vote(q, b), Vote(q, won.ballot));
    } else if b.lastTerm in s.leaders {
      assert LeadershipOk(s, b.lastTerm);
      var q := QuorumsMeet(counted, s.leaders[b.lastTerm].electors, |s.nodes|);
    }
  }

  lemma EnterWrites(s: State, n: nat, b: Ballot)
    requires LeadersInv(s) && s.Has(n) && b.term == s.nodes[n].currentTerm
    requires if b.term in s.leaders then s.leaders[b.term].ballot.candidate == n
             else Wins(s, n, Leadership(b, s.nodes[n].counted, [], |s.leaders|))
    ensures LeaderWrote(s, Enter(s, n, b), n)
  {
    if b.term in s.leaders {
      assert LeadershipOk(s, b.term);
    }
  }

  /** A leader object's book stays good while the object itself does not change. */
  lemma BookStays(s: State, s': State, i: nat, r: nat)
    requires Grows(s, s') && s.Has(i) && r in s.nodes[i].leaderships && BookOk(s, i, r)
    requires var v := s.nodes[i]; var v' := s'.nodes[i];
      && r in v'.leaderships && v'.leaderships[r] == v.leaderships[r] && v.roleId <= v'.roleId
      && (v'.role.Leader? && r == v'.roleId ==> v'.leaderships[r].term == v'.currentTerm)
    ensures BookOk(s', i, r)
  {
  }

  lemma EnterBooks(s: State, n: nat, b: Ballot)
    requires BooksInv(s) && s.Has(n) && s.nodes[n].currentTerm >= 1
    requires LeaderWrote(s, Enter(s, n, b), n) && Grows(s, Enter(s, n, b))
    ensures BooksInv(Enter(s, n, b))
  {
    var s' := Enter(s, n, b);
    forall i, r | 0 <= i < |s'.nodes| && r in s'.nodes[i].leaderships ensures BookOk(s', i, r) {
      if r in s.nodes[i].leaderships {
        assert BookOk(s, i, r);
        BookStays(s, s', i, r);
      } else {
        EnterOwnBook(s, n, b);
      }
    }
  }

  lemma EnterOwnBook(s: State, n: nat, b: Ballot)
    requires s.Has(n) && s.nodes[n].currentTerm >= 1 && LeaderWrote(s, Enter(s, n, b), n)
    ensures var s' := Enter(s, n, b); BookOk(s', n, s'.nodes[n].roleId) && InTerm(s', n, s'.nodes[n].roleId)
  {
  }

  lemma EnterBookTerms(id: nat, n: nat, v: Node)
    ensures var v' := BecomeLeader(id, n, v);
      v'.roleId in v'.leaderships && v'.roleId > v.roleId && v'.currentTerm == v.currentTerm &&
      forall r | r in v'.leaderships ::
        if r in v.leaderships && r != v'.roleId then v'.leaderships[r] == v.leaderships[r] else r == v'.roleId
  {
  }

  lemma EnterBooksTerms(s: State, n: nat, b: Ballot)
    requires BooksInv(s) && s.Has(n)
    ensures var v := s.nodes[n]; var v' := Enter(s, n, b).nodes[n];
      v'.roleId in v'.leaderships &&
      forall r | r in v'.leaderships ::
        if r in v.leaderships then v'.leaderships[r].term == v.leaderships[r].term else r > v.roleId
  {
    var v := s.nodes[n];
    EnterBookTerms(n, |s.nodes|, v);
    forall r | r in v.leaderships ensures r <= v.roleId {
      assert BookOk(s, n, r);
    }
  }

  lemma EnterInv(s: State, n: nat, b: Ballot)
    requires Inv(s) && s.Has(n) && b in s.ballots && b.candidate == n && b.term == s.nodes[n].currentTerm
    requires |s.nodes[n].counted| >= Majority(|s.nodes|)
    ensures var s' := Enter(s, n, b); Inv(s') && Grows(s, s') && InTerm(s', n, s'.nodes[n].roleId)
  {
    CountedWin(s, n, b);
    EnterWrites(s, n, b);
    assert BallotOk(s, b);
    EnterOwnBook(s, n, b);
    WroteGrows(s, Enter(s, n, b), n);
    EnterBooks(s, n, b);
    EnterBooksTerms(s, n, b);
    WroteInv(s, Enter(s, n, b), n);
  }

  lemma SubmitWrites(s: State, n: nat, entry: LogEntry)
    requires LeadersInv(s) && BooksInv(s) && s.Has(n) && s.nodes[n].role.Leader? && entry.term == s.nodes[n].currentTerm
    ensures LeaderWrote(s, LeaderAppend(s, n, entry), n)
  {
    assert RoleOk(s, n) && LeadershipOk(s, s.nodes[n].currentTerm);
    assert BookOk(s, n, s.nodes[n].roleId);
  }

  lemma SubmitOwnBook(s: State, n: nat, entry: LogEntry)
    requires LeadersInv(s) && BooksInv(s) && AcksInv(s) && s.Has(n) && s.nodes[n].role.Leader?
    requires Grows(s, LeaderAppend(s, n, entry))
    ensures s.nodes[n].roleId in s.nodes[n].leaderships && BookOk(LeaderAppend(s, n, entry), n, s.nodes[n].roleId)
  {
    var v := s.nodes[n];
    assert RoleOk(s, n) && LeadershipOk(s, v.currentTerm);
    var o := v.leaderships[v.roleId];
    assert BookOk(s, n, v.roleId);
    assert o.matched[n] <= |v.log| by {
      assert o.matched[n] == 0 || AckOk(s, Ack(n, o.term, o.matched[n]));
    }
  }

  lemma SubmitBooks(s: State, n: nat, entry: LogEntry)
    requires BooksInv(s) && s.Has(n) && Grows(s, LeaderAppend(s, n, entry))
    requires s.nodes[n].roleId in s.nodes[n].leaderships && BookOk(LeaderAppend(s, n, entry), n, s.nodes[n].roleId)
    ensures BooksInv(LeaderAppend(s, n, entry))
  {
    var s' := LeaderAppend(s, n, entry);
    SubmitBookTerms(s.nodes[n], n, entry);
    forall i, r | 0 <= i < |s'.nodes| && r in s'.nodes[i].leaderships ensures BookOk(s', i, r) {
      if i != n || r != s.nodes[n].roleId {
        assert BookOk(s, i, r);
        BookStays(s, s', i, r);
      }
    }
  }

  lemma SubmitBookTerms(v: Node, n: nat, entry: LogEntry)
    requires v.roleId in v.leaderships
    ensures var v' := Propose(n, v, entry);
      && v'.roleId == v.roleId && v'.role == v.role && v'.currentTerm == v.currentTerm
      && v'.leaderships.Keys == v.leaderships.Keys
      && (forall r | r in v'.leaderships :: v'.leaderships[r].term == v.leaderships[r].term)
      && (forall r | r in v'.leaderships && r != v.roleId :: v'.leaderships[r] == v.leaderships[r])
  {
  }

  lemma SubmitInv(s: State, n: nat, entry: LogEntry)
    requires Inv(s) && s.Has(n) && s.nodes[n].role.Leader? && entry.term == s.nodes[n].currentTerm
    ensures Inv(LeaderAppend(s, n, entry)) && Grows(s, LeaderAppend(s, n, entry))
  {
    var s' := LeaderAppend(s, n, entry);
    SubmitWrites(s, n, entry);
    WroteGrows(s, s', n);
    SubmitOwnBook(s, n, entry);
    SubmitBooks(s, n, entry);
    SubmitBookTerms(s.nodes[n], n, entry);
    WroteInv(s, s', n);
  }

  // ----- a follower takes a leader's entries -----

  ghost predicate MayTake(s: State, n: nat, m: AppendMsg) {
    && s.Has(n) && m in s.appends && m.to == n
    && !s.nodes[n].role.Leader? && s.nodes[n].currentTerm == m.term
    && Consistent(s.nodes[n].log, m.prevIndex, m.prevTerm)
  }

  function Take(s: State, n: nat, m: AppendMsg): State
    requires s.Has(n) && m.prevIndex <= |s.nodes[n].log|
  {
    s.With(n, s.nodes[n].(log := Append(s.nodes[n].log, m.prevIndex, m.entries)))
     .(replies := s.replies + {m}, acks := s.acks + AckOf(s, n, m))
  }

  /** Log Matching: any two logs with a common origin agree up to every index where their terms agree. */
  lemma AnchoredMatch(a: Log, b: Log, leaders: Leaders)
    requires Anchored(a, leaders) && Anchored(b, leaders)
    ensures Matching(a, b)
  {
    forall i | 0 <= i < |a| && i < |b| && a[i].term == b[i].term ensures a[..i + 1] == b[..i + 1] {
      assert AnchoredAt(a, i, leaders) && AnchoredAt(b, i, leaders);
    }
  }

  lemma AnchoredOrigin(a: Log, b: Log, leaders: Leaders)
    requires Anchored(a, leaders) && Anchored(b, leaders)
    ensures CommonOrigin(a, b)
  {
    forall i, j | 0 <= i < |a| && 0 <= j < |b| && a[i].term == b[j].term ensures Holds(a, b, Min(i, j) + 1) {
      assert AnchoredAt(a, i, leaders) && AnchoredAt(b, j, leaders);
      var source, k := leaders[a[i].term].log, Min(i, j) + 1;
      assert a[..k] == a[..i + 1][..k] == source[..i + 1][..k] == source[..k];
      assert b[..k] == b[..j + 1][..k] == source[..j + 1][..k] == source[..k];
    }
  }

  lemma AnchoredPositive(s: State, log: Log)
    requires LeadersInv(s) && Anchored(log, s.leaders)
    ensures Positive(log)
  {
    forall i | 0 <= i < |log| ensures log[i].term > 0 {
      assert AnchoredAt(log, i, s.leaders) && LeadershipOk(s, log[i].term);
    }
  }

  /** A request that a follower takes is a stretch of a log its sender has had as leader. */
  lemma TakeStretch(s: State, n: nat, m: AppendMsg) returns (t: nat)
    requires LeadersInv(s) && LogsInv(s) && AppendsInv(s) && MayTake(s, n, m)
    ensures SentIn(s, m, t) && Stretch(m, s.leaders[t].log) && s.leaders[t].ballot.candidate != n
    ensures Matching(s.nodes[n].log, s.leaders[t].log)
  {
    assert AppendOk(s, m);
    t :| SentIn(s, m, t);
    var log := s.nodes[n].log;
    assert LogOk(log, s.leaders) && LogOk(s.leaders[t].log, s.leaders);
    AnchoredMatch(log, s.leaders[t].log, s.leaders);
    if m.prevIndex > 0 {
      assert AnchoredAt(log, m.prevIndex - 1, s.leaders) && LeadershipOk(s, log[m.prevIndex - 1].term);
    }
  }

  /** What taking a request does to a follower's log, relative to the log it was sent from. */
  lemma TakeShape(s: State, n: nat, m: AppendMsg) returns (t: nat, cut: nat)
    requires LeadersInv(s) && LogsInv(s) && AppendsInv(s) && MayTake(s, n, m)
    ensures SentIn(s, m, t) && s.leaders[t].ballot.candidate != n && m.LastIndex() <= |s.leaders[t].log|
    ensures var log := s.nodes[n].log; var leader := s.leaders[t].log; var end := m.LastIndex();
      var result := Append(log, m.prevIndex, m.entries);
      (result == log && end <= |log| && log[..end] == leader[..end]) ||
      (result == leader[..end] && m.prevIndex <= cut < end && FirstDeparture(log, leader, cut))
  {
    t := TakeStretch(s, n, m);
    cut := AfterShape(s.nodes[n].log, m, s.leaders[t].log);
  }

  lemma PrefixOk(log: Log, k: nat, leaders: Leaders)
    requires LogOk(log, leaders) && k <= |log|
    ensures LogOk(log[..k], leaders)
  {
    forall i | 0 <= i < k ensures AnchoredAt(log[..k], i, leaders) {
      assert AnchoredAt(log, i, leaders);
      assert log[..k][..i + 1] == log[..i + 1];
    }
  }

  lemma TakeLogs(s: State, n: nat, m: AppendMsg)
    requires LeadersInv(s) && LogsInv(s) && AppendsInv(s) && MayTake(s, n, m)
    ensures LogsInv(Take(s, n, m))
  {
    var s' := Take(s, n, m);
    var t, cut := TakeShape(s, n, m);
    assert LogOk(s.nodes[n].log, s.leaders) && LogOk(s.leaders[t].log, s.leaders);
    PrefixOk(s.leaders[t].log, m.LastIndex(), s.leaders);
    forall i | 0 <= i < |s'.nodes| ensures LogOk(s'.nodes[i].log, s'.leaders) {
      assert LogOk(s.nodes[i].log, s.leaders);
    }
  }

  lemma TakeVotes(s: State, n: nat, m: AppendMsg)
    requires VotesInv(s) && BallotsInv(s) && CountedInv(s) && MayTake(s, n, m) && m.term in s.leaders
    ensures var s' := Take(s, n, m); VotesInv(s') && BallotsInv(s') && CountedInv(s')
  {
    var s' := Take(s, n, m);
    forall i | 0 <= i < |s'.nodes| ensures CountedOk(s', i) {
      assert CountedOk(s, i);
    }
    forall b | b in s'.ballots ensures BallotOk(s', b) {
      assert BallotOk(s, b);
    }
  }

  lemma TakeLeaders(s: State, n: nat, m: AppendMsg)
    requires LeadersInv(s) && MayTake(s, n, m) && m.term in s.leaders && s.leaders[m.term].ballot.candidate != n
    ensures LeadersInv(Take(s, n, m))
  {
    var s' := Take(s, n, m);
    forall i | 0 <= i < |s'.nodes| ensures RoleOk(s', i) {
      assert RoleOk(s, i);
    }
    forall t | t in s'.leaders ensures LeadershipOk(s', t) {
      assert LeadershipOk(s, t);
    }
  }

  /** What a follower held of an earlier leader's log it still holds, unless the new leader lacks it. */
  lemma TakeKeeps(log: Log, leader: Log, earlier: Log, k: nat, end: nat, cut: nat)
    requires Holds(log, earlier, k) && Holds(leader, earlier, k)
    requires cut < end <= |leader| && FirstDeparture(log, leader, cut)
    ensures k <= cut && Holds(leader[..end], earlier, k)
  {
    assert log[..k] == leader[..k];
    assert forall i | 0 <= i < k :: log[i] == log[..k][i] == leader[..k][i] == leader[i];
    assert leader[..end][..k] == leader[..k];
  }

  /** What a log held before taking a request it holds after, unless the log the request came from lacks it. */
  lemma KeptOrLacked(log: Log, result: Log, leader: Log, earlier: Log, j: nat, end: nat, cut: nat)
    requires end <= |leader| && Holds(log, earlier, j)
    requires result == log || (result == leader[..end] && cut < end && FirstDeparture(log, leader, cut))
    ensures Holds(result, earlier, j) || !Holds(leader, earlier, j)
  {
    if result != log && Holds(leader, earlier, j) {
      TakeKeeps(log, leader, earlier, j, end, cut);
    }
  }

  lemma LackedOverwritten(s: State, t: nat, from: nat, j: nat)
    requires LeadersInv(s) && t in s.leaders && from in s.leaders && from <= t && OwnTermAt(s.leaders, from, j)
    requires !Holds(s.leaders[t].log, s.leaders[from].log, j)
    ensures Overwritten(s.leaders, from, j, |s.leaders|)
  {
    assert LeadershipOk(s, t);
    assert from < t;
  }

  lemma TakeAckKept(s: State, n: nat, m: AppendMsg, a: Ack, j: nat)
    requires LeadersInv(s) && LogsInv(s) && AppendsInv(s) && MayTake(s, n, m)
    requires AckOk(s, a) && a.node == n && j <= a.index && AckKept(s, a, j)
    ensures AckKept(Take(s, n, m), a, j)
  {
    var t, cut := TakeShape(s, n, m);
    TakeAckKeptFrom(s, n, m, a, j, t, cut);
  }

  lemma TakeAckKeptFrom(s: State, n: nat, m: AppendMsg, a: Ack, j: nat, t: nat, cut: nat)
    requires LeadersInv(s) && s.Has(n) && m.prevIndex <= |s.nodes[n].log| && t in s.leaders
    requires m.LastIndex() <= |s.leaders[t].log|
    requires a.node == n && a.term in s.leaders && a.term <= t && AckKept(s, a, j)
    requires var log, leader, result :=
        s.nodes[n].log, s.leaders[t].log, Append(s.nodes[n].log, m.prevIndex, m.entries);
      result == log || (result == leader[..m.LastIndex()] && cut < m.LastIndex() && FirstDeparture(log, leader, cut))
    ensures AckKept(Take(s, n, m), a, j)
  {
    var log, earlier, leader := s.nodes[n].log, s.leaders[a.term].log, s.leaders[t].log;
    if OwnTermAt(s.leaders, a.term, j) && Holds(log, earlier, j) {
      KeptOrLacked(log, Append(log, m.prevIndex, m.entries), leader, earlier, j, m.LastIndex(), cut);
      if !Holds(leader, earlier, j) {
        LackedOverwritten(s, t, a.term, j);
      }
    }
  }

  lemma TakeNewAck(s: State, n: nat, m: AppendMsg, j: nat)
    requires LogsInv(s) && MayTake(s, n, m) && j <= m.LastIndex() && m.term in s.leaders
    requires Stretch(m, s.leaders[m.term].log)
    ensures var s' := Take(s, n, m); var a := Ack(n, m.term, m.LastIndex()); AckOk(s', a) && AckKept(s', a, j)
  {
    var s' := Take(s, n, m);
    var leader, end := s.leaders[m.term].log, m.LastIndex();
    assert LogOk(s.nodes[n].log, s.leaders) && LogOk(leader, s.leaders);
    AnchoredMatch(s.nodes[n].log, leader, s.leaders);
    var cut := AfterShape(s.nodes[n].log, m, leader);
    assert s'.nodes[n].log[..end] == leader[..end];
    assert s'.nodes[n].log[..j] == s'.nodes[n].log[..end][..j] == leader[..end][..j] == leader[..j];
  }

  lemma TakeAcks(s: State, n: nat, m: AppendMsg)
    requires LogsInv(s) && AcksInv(s) && MayTake(s, n, m)
    ensures AcksInv(Take(s, n, m))
  {
    var s' := Take(s, n, m);
    forall a | a in s'.acks ensures AckOk(s', a) {
      if a !in s.acks {
        TakeNewAck(s, n, m, 0);
      } else {
        assert AckOk(s, a);
      }
    }
  }

  lemma TakeOwnKept(s: State, n: nat, m: AppendMsg)
    requires LeadersInv(s) && LogsInv(s) && AppendsInv(s) && AcksInv(s) && KeptInv(s) && MayTake(s, n, m)
    ensures forall a, j | a in s.acks && a.node == n && 0 <= j <= a.index :: AckKept(Take(s, n, m), a, j)
  {
    forall a, j | a in s.acks && a.node == n && 0 <= j <= a.index ensures AckKept(Take(s, n, m), a, j) {
      assert AckOk(s, a) && AckKept(s, a, j);
      TakeAckKept(s, n, m, a, j);
    }
  }

  /** After the request, the new acknowledgement is kept. */
  ghost predicate NewKept(s: State, n: nat, m: AppendMsg)
    requires s.Has(n) && m.prevIndex <= |s.nodes[n].log|
  {
    AckOf(s, n, m) != {} ==>
      forall j | 0 <= j <= m.LastIndex() :: AckKept(Take(s, n, m), Ack(n, m.term, m.LastIndex()), j)
  }

  lemma TakeNewKept(s: State, n: nat, m: AppendMsg)
    requires LogsInv(s) && MayTake(s, n, m)
    ensures NewKept(s, n, m)
  {
    if AckOf(s, n, m) != {} {
      forall j | 0 <= j <= m.LastIndex() ensures AckKept(Take(s, n, m), Ack(n, m.term, m.LastIndex()), j) {
        TakeNewAck(s, n, m, j);
      }
    }
  }

  lemma TakeKept(s: State, n: nat, m: AppendMsg)
    requires KeptInv(s) && AcksInv(s) && s.Has(n) && m.prevIndex <= |s.nodes[n].log| && NewKept(s, n, m)
    requires forall a, j | a in s.acks && a.node == n && 0 <= j <= a.index :: AckKept(Take(s, n, m), a, j)
    ensures KeptInv(Take(s, n, m))
  {
    var s' := Take(s, n, m);
    forall a, j | a in s'.acks && 0 <= j <= a.index && s'.Has(a.node) ensures AckKept(s', a, j) {
      if a in s.acks && a.node != n {
        assert AckOk(s, a) && AckKept(s, a, j);
      }
    }
  }

  lemma TakeAllKept(s: State, n: nat, m: AppendMsg)
    requires LeadersInv(s) && LogsInv(s) && AppendsInv(s) && AcksInv(s) && KeptInv(s) && MayTake(s, n, m)
    ensures AcksInv(Take(s, n, m)) && KeptInv(Take(s, n, m))
  {
    TakeAcks(s, n, m);
    TakeOwnKept(s, n, m);
    TakeNewKept(s, n, m);
    TakeKept(s, n, m);
  }

  lemma TakeGrows(s: State, n: nat, m: AppendMsg)
    requires MayTake(s, n, m)
    ensures Grows(s, Take(s, n, m))
  {
  }

  lemma TakeAppends(s: State, n: nat, m: AppendMsg)
    requires AppendsInv(s) && MayTake(s, n, m) && Grows(s, Take(s, n, m))
    ensures AppendsInv(Take(s, n, m))
  {
    var s' := Take(s, n, m);
    forall x | x in s'.appends ensures AppendOk(s', x) {
      assert AppendOk(s, x);
      SentStill(s, s', x);
    }
  }

  lemma TakeNewReply(s: State, n: nat, m: AppendMsg)
    requires LeadersInv(s) && LogsInv(s) && AppendsInv(s) && MayTake(s, n, m)
    ensures ReplyOk(Take(s, n, m), m)
  {
    assert AppendOk(s, m);
    var t := TakeStretch(s, n, m);
  }

  lemma TakeReplies(s: State, n: nat, m: AppendMsg)
    requires LeadersInv(s) && LogsInv(s) && AppendsInv(s) && RepliesInv(s)
    requires MayTake(s, n, m) && Grows(s, Take(s, n, m))
    ensures RepliesInv(Take(s, n, m))
  {
    var s' := Take(s, n, m);
    TakeNewReply(s, n, m);
    forall x | x in s'.replies ensures ReplyOk(s', x) {
      if x in s.replies {
        assert ReplyOk(s, x) && AppendOk(s, x);
        RepliedStill(s, s', x);
      }
    }
  }

  lemma TakeBooks(s: State, n: nat, m: AppendMsg)
    requires BooksInv(s) && MayTake(s, n, m) && Grows(s, Take(s, n, m))
    ensures BooksInv(Take(s, n, m))
  {
    var s' := Take(s, n, m);
    forall i, r | 0 <= i < |s'.nodes| && r in s'.nodes[i].leaderships ensures BookOk(s', i, r) {
      assert BookOk(s, i, r);
      BookStays(s, s', i, r);
    }
  }

  lemma TakeRemembers(s: State, n: nat, m: AppendMsg)
    requires VotesInv(s) && RemembersInv(s) && MayTake(s, n, m)
    ensures RemembersInv(Take(s, n, m))
  {
    var s' := Take(s, n, m);
    forall vote, a, j | vote in s'.votes && a in s'.acks && 0 <= j <= a.index
      ensures VoteRemembers(s'.leaders, vote, a, j)
    {
      assert VoteOk(s, vote);
      if a in s.acks {
        assert VoteRemembers(s.leaders, vote, a, j);
      }
    }
  }

  lemma TakeInv(s: State, n: nat, m: AppendMsg)
    requires Inv(s) && MayTake(s, n, m)
    ensures Inv(Take(s, n, m)) && Grows(s, Take(s, n, m))
  {
    assert AppendOk(s, m);
    TakeVotes(s, n, m);
    TakeLeaders(s, n, m);
    TakeLogs(s, n, m);
    TakeAllKept(s, n, m);
    TakeGrows(s, n, m);
    TakeAppends(s, n, m);
    TakeReplies(s, n, m);
    TakeRemembers(s, n, m);
    TakeBooks(s, n, m);
  }

  // ----- a leader object hears of a success, and may commit -----

  ghost predicate MayNote(s: State, n: nat, m: AppendMsg) {
    s.Has(n) && m in s.replies && m.from == n && m.reign in s.nodes[n].leaderships
  }

  lemma SucceedBook(s: State, n: nat, m: AppendMsg)
    requires AppendsInv(s) && RepliesInv(s) && BooksInv(s) && MayNote(s, n, m) && Grows(s, Succeed(s, n, m))
    ensures BookOk(Succeed(s, n, m), n, m.reign)
  {
    assert ReplyOk(s, m) && AppendOk(s, m) && BookOk(s, n, m.reign);
  }

  lemma SucceedBooks(s: State, n: nat, m: AppendMsg)
    requires AppendsInv(s) && RepliesInv(s) && BooksInv(s) && MayNote(s, n, m) && Grows(s, Succeed(s, n, m))
    ensures BooksInv(Succeed(s, n, m))
  {
    var s' := Succeed(s, n, m);
    SucceedBook(s, n, m);
    forall i, r | 0 <= i < |s'.nodes| && r in s'.nodes[i].leaderships ensures BookOk(s', i, r) {
      if i != n || r != m.reign {
        assert BookOk(s, i, r);
        BookStays(s, s', i, r);
      }
    }
  }

  lemma SucceedQuiet(s: State, n: nat, m: AppendMsg)
    requires s.Has(n) && m.reign in s.nodes[n].leaderships
    ensures var s' := Succeed(s, n, m);
      Quiet(s, s') && forall i | 0 <= i < |s.nodes| :: SameVotes(s.nodes[i], s'.nodes[i])
  {
  }

  lemma SucceedInv(s: State, n: nat, m: AppendMsg)
    requires Inv(s) && MayNote(s, n, m)
    ensures Inv(Succeed(s, n, m)) && Grows(s, Succeed(s, n, m))
  {
    var s' := Succeed(s, n, m);
    SucceedQuiet(s, n, m);
    QuietVotes(s, s');
    SucceedBooks(s, n, m);
    QuietInv(s, s');
  }

  /** A leader object of the current term only commits what is chosen: its match indexes are truthful,
      and the candidate index is one that a majority of them reach. */
  lemma AdvanceChosen(s: State, n: nat, reign: nat)
    requires BooksInv(s) && LeadersInv(s) && InTerm(s, n, reign)
    requires var v := s.nodes[n];
      Commitment.Advance(v.log, v.currentTerm, v.leaderships[reign].matched, v.commitIndex) != v.commitIndex
    ensures var v := s.nodes[n];
      Chosen(s, v.currentTerm, Commitment.Advance(v.log, v.currentTerm, v.leaderships[reign].matched, v.commitIndex))
  {
    var v := s.nodes[n];
    assert BookOk(s, n, reign) && LeadershipOk(s, v.currentTerm);
    HoldersAcked(s, n, reign, Commitment.Advance(v.log, v.currentTerm, v.leaderships[reign].matched, v.commitIndex));
  }

  lemma HoldersAcked(s: State, n: nat, reign: nat, k: nat)
    requires InTerm(s, n, reign) && BookOk(s, n, reign) && 1 <= k
    requires var matched := s.nodes[n].leaderships[reign].matched; matched != [] && Commitment.Candidate(matched) == k
    ensures exists q :: AckedByAll(s, q, s.nodes[n].currentTerm, k)
  {
    var o := s.nodes[n].leaderships[reign];
    Commitment.CandidateExact(o.matched, k);
    var q := Commitment.Holders(o.matched, k);
    forall p | p in q ensures Acked(s, p, o.term, k) {
      assert Ack(p, o.term, o.matched[p]) in s.acks;
    }
    assert AckedByAll(s, q, o.term, k);
  }

  lemma RaiseCommitLocal(v: Node, commitIndex: nat)
    ensures LocalChange(v, RaiseCommit(v, commitIndex))
    ensures RaiseCommit(v, v.commitIndex).commitIndex == v.commitIndex
  {
  }

  lemma AdvanceBound(v: Node, reign: nat)
    requires reign in v.leaderships
    ensures var c := Commitment.Advance(v.log, v.currentTerm, v.leaderships[reign].matched, v.commitIndex);
      TryAdvance(v, reign).commitIndex == c && c >= v.commitIndex
  {
  }

  lemma TryCommitInv(s: State, n: nat, reign: nat)
    requires Inv(s) && s.Has(n) && reign in s.nodes[n].leaderships
    ensures Inv(TryCommit(s, n, reign)) && Grows(s, TryCommit(s, n, reign))
  {
    var v := s.nodes[n];
    var c := Commitment.Advance(v.log, v.currentTerm, v.leaderships[reign].matched, v.commitIndex);
    RaiseCommitLocal(v, c);
    LocalInv(s, n, TryAdvance(v, reign));
  }

  // ----- a leader sends -----

  /** Requests matter only to their own invariants. */
  lemma SameElections(s: State, s': State)
    requires VotesInv(s) && BallotsInv(s) && CountedInv(s) && LeadersInv(s) && LogsInv(s)
    requires s' == s.(appends := s'.appends)
    ensures VotesInv(s') && BallotsInv(s') && CountedInv(s') && LeadersInv(s') && LogsInv(s')
  {
    forall i | 0 <= i < |s'.nodes| ensures CountedOk(s', i) && RoleOk(s', i) {
      assert CountedOk(s, i) && RoleOk(s, i);
    }
    forall b | b in s'.ballots ensures BallotOk(s', b) {
      assert BallotOk(s, b);
    }
    forall t | t in s'.leaders ensures LeadershipOk(s', t) {
      assert LeadershipOk(s, t);
    }
  }

  lemma SameMemory(s: State, s': State)
    requires RepliesInv(s) && AcksInv(s) && BooksInv(s) && KeptInv(s) && RemembersInv(s)
    requires s' == s.(appends := s'.appends) && s.appends <= s'.appends
    ensures RepliesInv(s') && AcksInv(s') && BooksInv(s') && KeptInv(s') && RemembersInv(s')
  {
    forall i, r | 0 <= i < |s'.nodes| && r in s'.nodes[i].leaderships ensures BookOk(s', i, r) {
      assert BookOk(s, i, r);
    }
    forall m | m in s'.replies ensures ReplyOk(s', m) {
      assert ReplyOk(s, m);
    }
    forall a, j | a in s'.acks && 0 <= j <= a.index ensures AckKept(s', a, j) {
      assert AckOk(s, a) && AckKept(s, a, j);
    }
    forall vote, a, j | vote in s'.votes && a in s'.acks && 0 <= j <= a.index
      ensures VoteRemembers(s'.leaders, vote, a, j)
    {
      assert VoteRemembers(s.leaders, vote, a, j);
    }
  }

  /** What a leader object sends is a stretch of the log its node has as leader now, though a superseded
      object sends it in the name of its own term. */
  lemma BuiltOk(s: State, n: nat, reign: nat, peer: nat, maxBatch: nat)
    requires BooksInv(s) && LeadersInv(s) && s.Has(n) && s.nodes[n].role.Leader? && reign in s.nodes[n].leaderships
    requires peer != n && peer < |s.nodes[n].leaderships[reign].next|
    ensures var m := BuildAppend(n, s.nodes[n], reign, peer, maxBatch);
      AppendOk(s, m) && SentIn(s, m, s.nodes[n].currentTerm)
    ensures s.leaders[s.nodes[n].currentTerm].log == s.nodes[n].log
  {
    var v := s.nodes[n];
    assert BookOk(s, n, reign) && RoleOk(s, n) && LeadershipOk(s, v.currentTerm);
    BuiltStretch(n, v, reign, peer, maxBatch);
    assert SentIn(s, BuildAppend(n, v, reign, peer, maxBatch), v.currentTerm);
  }

  lemma BuiltStretch(n: nat, v: Node, reign: nat, peer: nat, maxBatch: nat)
    requires reign in v.leaderships && peer < |v.leaderships[reign].next|
    ensures var m := BuildAppend(n, v, reign, peer, maxBatch);
      Stretch(m, v.log) || (m.prevIndex > 0 && m.prevTerm == 0 && m.entries == [])
  {
    var m := BuildAppend(n, v, reign, peer, maxBatch);
    assert m.prevIndex <= |v.log| ==> m.entries == v.log[m.prevIndex..m.LastIndex()];
  }

  lemma SendAppends(s: State, s': State, m: AppendMsg)
    requires AppendsInv(s) && AppendOk(s, m) && s' == s.(appends := s.appends + {m})
    ensures AppendsInv(s') && Grows(s, s')
  {
    forall x | x in s'.appends ensures AppendOk(s', x) {
      assert AppendOk(s, x);
      SentStill(s, s', x);
    }
  }

  lemma SendInv(s: State, n: nat, reign: nat, peer: nat, maxBatch: nat)
    requires Inv(s) && s.Has(n) && s.nodes[n].role.Leader? && reign in s.nodes[n].leaderships
    requires peer != n && peer < |s.nodes[n].leaderships[reign].next|
    ensures var s' := s.(appends := s.appends + {BuildAppend(n, s.nodes[n], reign, peer, maxBatch)});
      Inv(s') && Grows(s, s')
  {
    var m := BuildAppend(n, s.nodes[n], reign, peer, maxBatch);
    var s' := s.(appends := s.appends + {m});
    BuiltOk(s, n, reign, peer, maxBatch);
    SendAppends(s, s', m);
    SameElections(s, s');
    SameMemory(s, s');
  }

  // ----- whole steps -----

  lemma CommitAfter(s: State, s1: State, n: nat, reign: nat)
    requires Inv(s1) && Grows(s, s1) && s1.Has(n) && reign in s1.nodes[n].leaderships
    ensures Inv(TryCommit(s1, n, reign)) && Grows(s, TryCommit(s1, n, reign))
  {
    TryCommitInv(s1, n, reign);
    GrowsTransitive(s, s1, TryCommit(s1, n, reign));
  }

  lemma MaybeWinIs(s: State, n: nat, b: Ballot)
    requires s.Has(n)
    ensures var s1 := Enter(s, n, b); s1.Has(n) && s1.nodes[n].roleId in s1.nodes[n].leaderships
    ensures var s1 := Enter(s, n, b);
      MaybeWin(s, n, b) == if |s.nodes[n].counted| < Majority(|s.nodes|) then s
                               else TryCommit(s1, n, s1.nodes[n].roleId)
  {
  }

  lemma WinInv(s: State, n: nat, b: Ballot)
    requires Inv(s) && s.Has(n) && b in s.ballots && b.candidate == n && b.term == s.nodes[n].currentTerm
    ensures Inv(MaybeWin(s, n, b)) && Grows(s, MaybeWin(s, n, b))
  {
    MaybeWinIs(s, n, b);
    if |s.nodes[n].counted| >= Majority(|s.nodes|) {
      var s1 := Enter(s, n, b);
      EnterInv(s, n, b);
      CommitAfter(s, s1, n, s1.nodes[n].roleId);
    }
  }

  lemma BeginElectionInv(s: State, n: nat)
    requires Inv(s) && Enabled(s, BeginElection(n))
    ensures var s' := Next(s, BeginElection(n)); Inv(s') && Grows(s, s')
  {
    var s1 := Open(s, n);
    OpenInv(s, n);
    var b := BallotOf(n, s1.nodes[n]);
    WinInv(s1, n, b);
    GrowsTransitive(s, s1, MaybeWin(s1, n, b));
  }

  lemma DeliverVoteInv(s: State, n: nat, vote: Vote)
    requires Inv(s) && Enabled(s, DeliverVote(n, vote))
    ensures var s' := Next(s, DeliverVote(n, vote)); Inv(s') && Grows(s, s')
  {
    var s1 := CountVote(s, n, vote);
    CountInv(s, n, vote);
    assert VoteOk(s, vote);
    WinInv(s1, n, vote.ballot);
    GrowsTransitive(s, s1, MaybeWin(s1, n, vote.ballot));
  }

  lemma GrantInv(s: State, n: nat, b: Ballot)
    requires Inv(s) && s.Has(n) && b in s.ballots
    ensures Inv(Grant(s, n, b)) && Grows(s, Grant(s, n, b))
  {
    var v := s.nodes[n];
    var f := if b.term > v.currentTerm then BecomeFollower(v, b.term) else v;
    var s1 := s.With(n, f);
    LocalInv(s, n, f);
    var (_, granted) := HandleRequestVote(v, b);
    if granted {
      CastInv(s1, n, b);
      assert Grant(s, n, b) == Cast(s1, n, b);
      GrowsTransitive(s, s1, Cast(s1, n, b));
    } else {
      assert Grant(s, n, b) == s1;
    }
  }

  lemma ReceiveLocal(v: Node, m: AppendMsg)
    requires m.term >= v.currentTerm
    ensures var f := Receive(v, m);
      LocalChange(v, f) && f.role.Follower? && f.currentTerm == m.term && f.commitIndex == v.commitIndex
  {
  }

  lemma CommitAndApplyLocal(v: Node, commitIndex: nat)
    ensures LocalChange(v, ApplyCommitted(RaiseCommit(v, commitIndex)))
  {
  }

  /** A successful AppendEntries handler is: become a follower of the sender, take its entries, commit and apply. */
  lemma DeliverIsTake(s: State, n: nat, m: AppendMsg)
    requires s.Has(n) && m in s.appends && m.to == n && HandleAppend(n, s.nodes[n], m).1
    ensures var s1 := s.With(n, Receive(s.nodes[n], m));
      && MayTake(s1, n, m)
      && var s2 := Take(s1, n, m);
         Deliver(s, n, m) == s2.With(n, ApplyCommitted(RaiseCommit(s2.nodes[n], m.leaderCommit)))
  {
    var s1 := s.With(n, Receive(s.nodes[n], m));
    var s2 := Take(s1, n, m);
    assert HandleAppend(n, s.nodes[n], m).0 == ApplyCommitted(RaiseCommit(s2.nodes[n], m.leaderCommit));
    assert s2.With(n, HandleAppend(n, s.nodes[n], m).0).nodes == Deliver(s, n, m).nodes;
  }

  lemma AcceptInv(s: State, n: nat, m: AppendMsg)
    requires Inv(s) && s.Has(n) && m in s.appends && m.to == n && HandleAppend(n, s.nodes[n], m).1
    ensures Inv(Deliver(s, n, m)) && Grows(s, Deliver(s, n, m))
  {
    var f := Receive(s.nodes[n], m);
    ReceiveLocal(s.nodes[n], m);
    DeliverIsTake(s, n, m);
    var s1 := s.With(n, f);
    LocalInv(s, n, f);
    var s2 := Take(s1, n, m);
    TakeInv(s1, n, m);
    var v' := ApplyCommitted(RaiseCommit(s2.nodes[n], m.leaderCommit));
    CommitAndApplyLocal(s2.nodes[n], m.leaderCommit);
    LocalInv(s2, n, v');
    GrowsTransitive(s, s1, s2);
    GrowsTransitive(s, s2, s2.With(n, v'));
  }

  lemma DeliverInv(s: State, n: nat, m: AppendMsg)
    requires Inv(s) && s.Has(n) && m in s.appends && m.to == n
    ensures Inv(Deliver(s, n, m)) && Grows(s, Deliver(s, n, m))
  {
    var (v', ok) := HandleAppend(n, s.nodes[n], m);
    if ok {
      AcceptInv(s, n, m);
    } else {
      if m.term >= s.nodes[n].currentTerm {
        ReceiveLocal(s.nodes[n], m);
      }
      LocalInv(s, n, v');
    }
  }

  lemma DeliverSuccessInv(s: State, n: nat, m: AppendMsg)
    requires Inv(s) && MayNote(s, n, m)
    ensures Inv(TryCommit(Succeed(s, n, m), n, m.reign)) && Grows(s, TryCommit(Succeed(s, n, m), n, m.reign))
  {
    var s1 := Succeed(s, n, m);
    SucceedInv(s, n, m);
    CommitAfter(s, s1, n, m.reign);
  }

  /** Steps in which a node only changes itself. */
  predicate Private(step: Step) {
    step.Timeout? || step.YieldTo? || step.DeliverRejection? || step.Apply? || step.Crash? || step.CrashInElection?
  }

  lemma RejectionLocal(v: Node, reign: nat, peer: nat, conflictIndex: nat, conflictTerm: nat)
    requires reign in v.leaderships
    ensures LocalChange(v, NoteRejection(v, reign, peer, conflictIndex, conflictTerm))
  {
  }

  lemma PrivateLocal(s: State, step: Step)
    requires Enabled(s, step) && Private(step)
    ensures LocalChange(s.nodes[step.n], Next(s, step).nodes[step.n])
    ensures Next(s, step) == s.With(step.n, Next(s, step).nodes[step.n])
  {
    if step.DeliverRejection? {
      RejectionLocal(s.nodes[step.n], step.msg.reign, step.msg.to, step.conflictIndex, step.conflictTerm);
    }
  }

  /** Every step keeps the invariants and only adds to the history. */
  lemma StepInv(s: State, step: Step)
    requires Inv(s) && Enabled(s, step)
    ensures Inv(Next(s, step)) && Grows(s, Next(s, step))
  {
    var n := step.n;
    if Private(step) {
      PrivateLocal(s, step);
      LocalInv(s, n, Next(s, step).nodes[n]);
    } else {
      match step
      case BeginElection(_) => BeginElectionInv(s, n);
      case DeliverVoteRequest(_, b) => GrantInv(s, n, b);
      case DeliverVote(_, vote) => DeliverVoteInv(s, n, vote);
      case Submit(_, entry) => SubmitInv(s, n, entry);
      case SendAppend(_, reign, peer, maxBatch) => SendInv(s, n, reign, peer, maxBatch);
      case DeliverAppend(_, m) => DeliverInv(s, n, m);
      case DeliverSuccess(_, m) => DeliverSuccessInv(s, n, m);
    }
  }

  lemma InitInv(s: State)
    requires Init(s)
    ensures Inv(s)
  {
  }
}
