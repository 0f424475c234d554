/** One node's state and what each of its handlers does to it.  A handler runs under the node's
    mutex, so each is one step.  Node ids are positions in the fixed node list. */
module Nodes {
  import opened Types
  import opened Logs
  import opened Quorums
  import Commitment

  datatype Role = Follower | Candidate | Leader

  /** The bookkeeping of one leader role object.  It outlives the role: replies to requests it sent
      still reach it after the node has moved on. */
  datatype LeaderObject = LeaderObject(term: nat, next: seq<nat>, matched: seq<nat>)

  /** A vote request; `lastIndex` and `lastTerm` describe the candidate's log. */
  datatype Ballot = Ballot(term: nat, candidate: nat, lastIndex: nat, lastTerm: nat)

  /** An AppendEntries request.  `reign` is the leader role object waiting for the reply. */
  datatype AppendMsg = AppendMsg(from: nat, to: nat, reign: nat, term: nat, prevIndex: nat, prevTerm: nat,
                                 entries: Log, leaderCommit: nat)
  {
    function LastIndex(): nat {
      prevIndex + |entries|
    }

    /** The term of the last position the message speaks about. */
    function LastTerm(): nat {
      if entries == [] then prevTerm else entries[|entries| - 1].term
    }
  }

  /** The request is a stretch of the leader's log. */
  predicate Stretch(m: AppendMsg, leader: Log) {
    && m.LastIndex() <= |leader| && m.prevTerm == TermAt(leader, m.prevIndex)
    && m.entries == leader[m.prevIndex..m.LastIndex()]
  }

  /** `roleId` identifies the current role object.  `counted` holds the voters counted by the
      candidate object that opened `currentTerm`; it may be a superseded object.
      `applied` is what the state machine has been fed.  The program replays its whole log when it comes
      back from a crash; `rash` says whether it has ever done so without knowing all of it to be committed. */
  datatype Node = Node(currentTerm: nat, votedFor: Option<nat>, log: Log,
                       role: Role, roleId: nat, counted: set<nat>, leaderships: map<nat, LeaderObject>,
                       commitIndex: nat, lastApplied: nat, applied: Log, rash: bool)

  const Fresh := Node(0, None, [], Follower, 1, {}, map[], 0, 0, [], false)

  function BecomeFollower(v: Node, term: nat): Node {
    var stepped := v.(role := Follower, roleId := v.roleId + 1);
    if term > v.currentTerm then stepped.(currentTerm := term, votedFor := None, counted := {}) else stepped
  }

  function BecomeCandidate(v: Node): Node {
    v.(role := Candidate, roleId := v.roleId + 1)
  }

  /** A candidate opens a new term and votes for itself. */
  function OpenTerm(id: nat, v: Node): Node {
    v.(currentTerm := v.currentTerm + 1, votedFor := Some(id), counted := {id})
  }

  function BallotOf(id: nat, v: Node): Ballot {
    Ballot(v.currentTerm, id, |v.log|, LastTerm(v.log))
  }

  function VoteAsFollower(v: Node, b: Ballot): (Node, bool) {
    if v.votedFor.Some? && v.votedFor.value != b.candidate then (v, false)
    else if !UpToDate(v.log, b.lastIndex, b.lastTerm) then (v, false)
    else (v.(votedFor := Some(b.candidate)), true)
  }

  function HandleRequestVote(v: Node, b: Ballot): (Node, bool) {
    if b.term < v.currentTerm then (v, false)
    else if b.term > v.currentTerm then VoteAsFollower(BecomeFollower(v, b.term), b)
    else if v.role.Follower? then VoteAsFollower(v, b)
    else (v, false)
  }

  /** Entering leadership: a fresh leader object, and a no-op of the current term. */
  function BecomeLeader(id: nat, n: nat, v: Node): Node {
    var log := v.log + [NoOp(v.currentTerm)];
    var book := LeaderObject(v.currentTerm,
                               seq(n, p => if p == id then |log| + 1 else |log|),
                               seq(n, p => if p == id then |log| else 0));
    v.(role := Leader, roleId := v.roleId + 1, log := log, leaderships := v.leaderships[v.roleId + 1 := book])
  }

  /** The leader appends a proposal and counts itself as holding it. */
  function Propose(id: nat, v: Node, entry: LogEntry): Node {
    var log := v.log + [entry];
    var v' := v.(log := log);
    if v.roleId in v.leaderships then
      var o := v.leaderships[v.roleId];
      if id < |o.matched| && id < |o.next| then
        v'.(leaderships := v.leaderships[v.roleId := o.(matched := o.matched[id := Max(o.matched[id], |log|)],
                                                        next := o.next[id := Max(o.next[id], |log| + 1)])])
      else v'
    else v'
  }

  /** A request for the entries from `next` on, at most `maxBatch` of them. */
  function RequestAt(log: Log, next: nat, maxBatch: nat): (nat, nat, Log)
    requires next >= 1
  {
    var prev := next - 1;
    (prev, if prev <= |log| then TermAt(log, prev) else 0,
     if next <= |log| then log[prev..Min(|log|, prev + maxBatch)] else [])
  }

  /** The request a leader object builds for a peer. */
  function BuildAppend(id: nat, v: Node, reign: nat, peer: nat, maxBatch: nat): AppendMsg
    requires reign in v.leaderships && peer < |v.leaderships[reign].next|
  {
    var o := v.leaderships[reign];
    var next := if o.next[peer] == 0 then |v.log| + 1 else o.next[peer];
    var (prev, prevTerm, batch) := RequestAt(v.log, next, maxBatch);
    AppendMsg(id, peer, reign, o.term, prev, prevTerm, batch, v.commitIndex)
  }

  /** setCommitIndex: capped by the node's own last index, and never backwards. */
  function RaiseCommit(v: Node, commitIndex: nat): Node {
    if v.log == [] then v else v.(commitIndex := Max(v.commitIndex, Min(commitIndex, |v.log|)))
  }

  /** Feed the state machine everything committed and not yet applied. */
  function ApplyCommitted(v: Node): Node {
    var upTo := Min(v.commitIndex, |v.log|);
    if upTo <= v.lastApplied then v
    else v.(lastApplied := upTo, applied := v.applied + v.log[v.lastApplied..upTo])
  }

  /** The role in which a node looks at an AppendEntries request that is not out of date. */
  function Receive(v: Node, m: AppendMsg): Node {
    if v.role.Follower? && m.term <= v.currentTerm then v else BecomeFollower(v, m.term)
  }

  /** The whole AppendEntries handler; the flag is the success reply. */
  function HandleAppend(id: nat, v: Node, m: AppendMsg): (Node, bool) {
    if m.term < v.currentTerm || (v.role.Leader? && m.term == v.currentTerm && m.from == id) then (v, false)
    else TakeAsFollower(Receive(v, m), m)
  }

  /** The follower's part: check, append, commit, apply. */
  function TakeAsFollower(f: Node, m: AppendMsg): (Node, bool) {
    if !Consistent(f.log, m.prevIndex, m.prevTerm) then (f, false)
    else (ApplyCommitted(RaiseCommit(f.(log := Append(f.log, m.prevIndex, m.entries)), m.leaderCommit)), true)
  }

  /** The leader object notes that `peer` holds everything up to `index`. */
  function NoteSuccess(v: Node, reign: nat, peer: nat, index: nat): Node
    requires reign in v.leaderships
  {
    var o := v.leaderships[reign];
    if peer < |o.matched| && peer < |o.next| then
      v.(leaderships := v.leaderships[reign := o.(matched := o.matched[peer := Max(o.matched[peer], index)],
                                                   next := o.next[peer := Max(o.next[peer], index + 1)])])
    else v
  }

  /** First index of the run of equal terms that ends at `index`, not looking at or below `floor`. */
  function RunStart(log: Log, index: nat, floor: nat): nat
    requires 0 < index <= |log|
    decreases index
  {
    if index > 1 && index > floor + 1 && log[index - 2].term == log[index - 1].term then RunStart(log, index - 1, floor)
    else index
  }

  /** The last index of a term in the log, found by walking back; 0 if the term is passed or absent. */
  function LastIndexOfTerm(log: Log, term: nat): nat {
    if term == 0 || log == [] then 0
    else if log[|log| - 1].term == term then |log|
    else if log[|log| - 1].term < term then 0
    else LastIndexOfTerm(log[..|log| - 1], term)
  }

  /** Where the leader goes back to after a rejection that reports a conflict. */
  function BackOff(log: Log, next: nat, conflictIndex: nat, conflictTerm: nat): nat {
    if next <= 1 then next
    else
      var last := LastIndexOfTerm(log, conflictTerm);
      Max(1, if last > 0 then last + 1 else conflictIndex)
  }

  function NoteRejection(v: Node, reign: nat, peer: nat, conflictIndex: nat, conflictTerm: nat): Node
    requires reign in v.leaderships
  {
    var o := v.leaderships[reign];
    if peer < |o.next| then
      v.(leaderships := v.leaderships[reign :=
        o.(next := o.next[peer := BackOff(v.log, o.next[peer], conflictIndex, conflictTerm)])])
    else v
  }

  /** A leader object tries to move the node's commit index. */
  function TryAdvance(v: Node, reign: nat): Node
    requires reign in v.leaderships
  {
    RaiseCommit(v, Commitment.Advance(v.log, v.currentTerm, v.leaderships[reign].matched, v.commitIndex))
  }

  /** A crash keeps term, vote and log; start-up replays the whole log into a fresh state machine.  That is no
      more than was committed if the commit index had reached the last index, or all of the log had been applied. */
  function Restart(v: Node): Node {
    Node(v.currentTerm, v.votedFor, v.log, Follower, v.roleId + 1, {}, map[], 0, |v.log|, v.log,
         v.rash || (v.commitIndex < |v.log| && v.lastApplied < |v.log|))
  }
}
