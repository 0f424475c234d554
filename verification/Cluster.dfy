/** The cluster as a step system.  Requests and replies are never removed from the sets that hold
    them, so every loss, delay, duplication and reordering is a run of the model. */
module Cluster {
  import opened Types
  import opened Logs
  import opened Quorums
  import opened Nodes
  import Commitment

  /** A granted vote: the reply to a vote request, or a candidate's vote for itself. */
  datatype Vote = Vote(voter: nat, ballot: Ballot)

  /** History: `node` held `term`'s leader's log up to `index` while in that term.  It is recorded when a
      request that is a stretch of that log is accepted, and when a leader appends to its own log. */
  datatype Ack = Ack(node: nat, term: nat, index: nat)

  /** History: who won a term, with whose votes, the longest log it has had as leader, and how many
      terms had been won before. */
  datatype Leadership = Leadership(ballot: Ballot, electors: set<nat>, log: Log, rank: nat)

  /** `replies` holds the requests that have been accepted. */
  datatype State = State(nodes: seq<Node>, ballots: set<Ballot>, votes: set<Vote>,
                         appends: set<AppendMsg>, replies: set<AppendMsg>, acks: set<Ack>,
                         leaders: map<nat, Leadership>)
  {
    predicate Has(n: nat) {
      n < |nodes|
    }

    /** Node n now is v; everything else is as before. */
    function With(n: nat, v: Node): State
      requires Has(n)
    {
      this.(nodes := nodes[n := v])
    }
  }

  predicate Init(s: State) {
    && |s.nodes| > 0
    && (forall n | 0 <= n < |s.nodes| :: s.nodes[n] == Fresh)
    && s == State(s.nodes, {}, {}, {}, {}, {}, map[])
  }

  // ----- what the handlers do to the whole cluster -----

  /** A candidate object opens a term: the node's new state, its ballot, and its own vote. */
  function Open(s: State, n: nat): State
    requires s.Has(n)
  {
    var v := OpenTerm(n, s.nodes[n]);
    var b := BallotOf(n, v);
    s.With(n, v).(ballots := s.ballots + {b}, votes := s.votes + {Vote(n, b)})
  }

  /** The history once node n, leader of its term by `ballot`, has the given log. */
  function Record(s: State, n: nat, ballot: Ballot, log: Log): map<nat, Leadership>
    requires s.Has(n)
  {
    var term := s.nodes[n].currentTerm;
    if term in s.leaders then s.leaders[term := s.leaders[term].(log := log)]
    else s.leaders[term := Leadership(ballot, s.nodes[n].counted, log, |s.leaders|)]
  }

  /** Node n, whose votes for `ballot` have been counted, enters leadership. */
  function Enter(s: State, n: nat, ballot: Ballot): State
    requires s.Has(n)
  {
    var v := BecomeLeader(n, |s.nodes|, s.nodes[n]);
    s.With(n, v).(leaders := Record(s, n, ballot, v.log), acks := s.acks + {Ack(n, v.currentTerm, |v.log|)})
  }

  function TryCommit(s: State, n: nat, reign: nat): State
    requires s.Has(n) && reign in s.nodes[n].leaderships
  {
    s.With(n, TryAdvance(s.nodes[n], reign))
  }

  /** Enter leadership and try to commit at once, if the counted votes are a majority. */
  function MaybeWin(s: State, n: nat, ballot: Ballot): State
    requires s.Has(n)
  {
    if |s.nodes[n].counted| < Majority(|s.nodes|) then s
    else
      var s' := Enter(s, n, ballot);
      TryCommit(s', n, s'.nodes[n].roleId)
  }

  function Grant(s: State, n: nat, b: Ballot): State
    requires s.Has(n)
  {
    var (v, granted) := HandleRequestVote(s.nodes[n], b);
    if granted then s.With(n, v).(votes := s.votes + {Vote(n, b)}) else s.With(n, v)
  }

  function CountVote(s: State, n: nat, vote: Vote): State
    requires s.Has(n)
  {
    s.With(n, s.nodes[n].(counted := s.nodes[n].counted + {vote.voter}))
  }

  function LeaderAppend(s: State, n: nat, entry: LogEntry): State
    requires s.Has(n)
  {
    var v := Propose(n, s.nodes[n], entry);
    s.With(n, v).(leaders := Record(s, n, BallotOf(n, s.nodes[n]), v.log),
                  acks := s.acks + {Ack(n, v.currentTerm, |v.log|)})
  }

  /** What accepting a request adds to the history. */
  function AckOf(s: State, n: nat, m: AppendMsg): set<Ack> {
    if m.term in s.leaders && Stretch(m, s.leaders[m.term].log) then {Ack(n, m.term, m.LastIndex())} else {}
  }

  function Deliver(s: State, n: nat, m: AppendMsg): State
    requires s.Has(n)
  {
    var (v, ok) := HandleAppend(n, s.nodes[n], m);
    if ok then s.With(n, v).(replies := s.replies + {m}, acks := s.acks + AckOf(s, n, m)) else s.With(n, v)
  }

  function Succeed(s: State, n: nat, m: AppendMsg): State
    requires s.Has(n) && m.reign in s.nodes[n].leaderships
  {
    s.With(n, NoteSuccess(s.nodes[n], m.reign, m.to, m.LastIndex()))
  }

  // ----- steps -----

  datatype Step =
    | Timeout(n: nat)                           // election deadline reached
    | BeginElection(n: nat)                     // pre-votes won, or not needed
    | DeliverVoteRequest(n: nat, ballot: Ballot)
    | DeliverVote(n: nat, vote: Vote)
    | YieldTo(n: nat, term: nat)                // a reply with a higher term, a lost lease, a failed pre-vote
    | Submit(n: nat, entry: LogEntry)           // as it reads once it has been written
    | SendAppend(n: nat, reign: nat, peer: nat, maxBatch: nat)
    | DeliverAppend(n: nat, msg: AppendMsg)
    | DeliverSuccess(n: nat, msg: AppendMsg)
    | DeliverRejection(n: nat, msg: AppendMsg, conflictIndex: nat, conflictTerm: nat)  // also a failed call
    | Apply(n: nat)                             // the leader's applier
    | Crash(n: nat)
    | CrashInElection(n: nat)                   // between persisting the new term and the vote

  /** The guards the program checks.  A reply to an append request needs some leader role in place,
      not the one that sent the request. */
  predicate Enabled(s: State, step: Step) {
    s.Has(step.n) &&
    var v := s.nodes[step.n];
    match step
    case Timeout(_) => !v.role.Leader?
    case BeginElection(_) => v.role.Candidate?
    case DeliverVoteRequest(n, b) => b in s.ballots && b.candidate != n
    case DeliverVote(n, vote) =>
      v.role.Candidate? && vote in s.votes && vote.ballot.candidate == n && vote.ballot.term == v.currentTerm &&
      n in v.counted && vote.voter !in v.counted
    case YieldTo(_, _) => true
    case Submit(n, entry) => v.role.Leader? && entry.term == v.currentTerm
    case SendAppend(n, reign, peer, _) =>
      v.role.Leader? && peer != n && reign in v.leaderships && peer < |v.leaderships[reign].next|
    case DeliverAppend(n, m) => m in s.appends && m.to == n
    case DeliverSuccess(n, m) =>
      v.role.Leader? && m in s.replies && m.from == n && m.reign in v.leaderships
    case DeliverRejection(n, m, _, _) =>
      v.role.Leader? && m in s.appends && m.from == n && m.reign in v.leaderships
    case Apply(_) => true
    case Crash(_) => true
    case CrashInElection(_) => v.role.Candidate?
  }

  function Next(s: State, step: Step): (s': State)
    requires Enabled(s, step)
    ensures |s'.nodes| == |s.nodes|
  {
    var n := step.n;
    var v := s.nodes[n];
    match step
    case Timeout(_) => s.With(n, BecomeCandidate(v))
    case BeginElection(_) =>
      var s' := Open(s, n);
      MaybeWin(s', n, BallotOf(n, s'.nodes[n]))
    case DeliverVoteRequest(_, b) => Grant(s, n, b)
    case DeliverVote(_, vote) => MaybeWin(CountVote(s, n, vote), n, vote.ballot)
    case YieldTo(_, term) => s.With(n, BecomeFollower(v, term))
    case Submit(_, entry) => LeaderAppend(s, n, entry)
    case SendAppend(_, reign, peer, maxBatch) =>
      s.(appends := s.appends + {BuildAppend(n, v, reign, peer, maxBatch)})
    case DeliverAppend(_, m) => Deliver(s, n, m)
    case DeliverSuccess(_, m) => TryCommit(Succeed(s, n, m), n, m.reign)
    case DeliverRejection(_, m, conflictIndex, conflictTerm) =>
      s.With(n, NoteRejection(v, m.reign, m.to, conflictIndex, conflictTerm))
    case Apply(_) => s.With(n, ApplyCommitted(v))
    case Crash(_) => s.With(n, Restart(v))
    case CrashInElection(_) => s.With(n, Restart(v.(currentTerm := v.currentTerm + 1)))
  }

  /** A finite run: states[i] --steps[i]--> states[i + 1]. */
  ghost predicate Run(states: seq<State>, steps: seq<Step>) {
    && |states| == |steps| + 1
    && Init(states[0])
    && forall i | 0 <= i < |steps| :: Enabled(states[i], steps[i]) && states[i + 1] == Next(states[i], steps[i])
  }

  // ----- superseded leader objects -----

  /** The leader object is of its node's current term. */
  predicate InTerm(s: State, n: nat, reign: nat) {
    s.Has(n) && reign in s.nodes[n].leaderships && s.nodes[n].leaderships[reign].term == s.nodes[n].currentTerm
  }

  /** A request is sent by a leader object of its node's current term.  A superseded one sends too: in the program
      only to retry, on a reply; in the model at any time. */
  predicate Current(s: State, step: Step) {
    step.SendAppend? ==> InTerm(s, step.n, step.reign)
  }

  /** A reply handled by a superseded leader object, one of an earlier term, does not move the commit index. */
  predicate Timely(s: State, step: Step) {
    step.DeliverSuccess? && Enabled(s, step) && !InTerm(s, step.n, step.msg.reign) ==>
      Next(s, step).nodes[step.n].commitIndex == s.nodes[step.n].commitIndex
  }
}
