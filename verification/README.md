# Raft, the session table and the counter: a Dafny model

This project models the consensus core of a Raft server written in Go, and proves what the server's
documentation claims for it (README.md, "Safety Properties") for every run of the model, or says exactly
when the claim holds. Verify with `dafny verify dfyconfig.toml`.

## What is modelled

**One node (`Nodes`, `Raft.dfy`).** `Nodes` gives each handler as a function on a node's whole state: the
durable term, vote and log, and the volatile role, commit index, last applied index and leader
bookkeeping. `RaftNode.Raft` is the same node as the program keeps it: fields that the handlers update,
loops that walk the log, and a log whose beginning may have been compacted away. Each of its methods is
proved to do what the function says, read against the full log (`Abs`), and its contract says in the node's own
fields what that is. Log index i is position i - 1 of a sequence; an entry the log library has dropped cannot be
read. `Compaction` says what that changes in a handler, and when it changes nothing; `Handlers` says exactly when a
vote is granted.

**The cluster (`Cluster`).** A state is all nodes plus every vote request, vote, append request, success
reply and acknowledgement there has ever been. Nothing is removed from those sets, so loss, delay,
duplication and reordering are all runs. Nodes crash and restart at any point, also between persisting a new
term and the vote. A superseded candidate object still counts late votes, and a superseded leader object
still exists, is still handed replies, and still sends requests in its own old term. In the program it sends
only to retry, when a reply or a failed call comes in; in the model it may send at any moment. Steps that
only timers or the network decide happen at any moment: an election begins whenever a node is a candidate
(which covers every way pre-votes can go), a node adopts any term and steps down whenever it likes (a reply
with a higher term, a lost lease, a failed pre-vote call, which returns current + 1), and a rejection
carries any conflict index and term (which covers a failed call, which reports 0 and 0).

**Safety (`Invariants` to `StateMachineSafety`, `Acknowledgements`).** The invariants say what votes,
ballots, leaders' logs, requests, replies, acknowledgements and match indexes mean; every step keeps them,
without any assumption, and the theorems follow for whole runs, comparing any two moments. Terms are won in an
order of their own (`rank`): a candidate may win a term after a later one has been won, and the induction
behind Leader Completeness goes by that order. Safety alone would hold of
nodes that never vote or commit: `Progress` adds what a round of replication achieves when nothing gets in its way,
and `Elections` that any run can be continued so that a node which a quorum has nothing against is elected, and then
commits and applies a command.

**Applying and answering (`Sessions`, `Answers`, `Proposals`).** The state machine is a parameter: its
answer is the whole sequence of inputs it has had, which determines the answer of any deterministic
machine. The apply loop with its duplicate check is one fold over the log, used by all three copies of
the loop in the program. What is appended, compared and applied is an entry as it reads once it has been
written (`LogEntryCodec.Stored`), which need not be the entry that a caller proposed.

**Codecs, store and counter.** `LogEntryCodec` and `SessionTables` work on byte sequences and buffers with
a running offset; `Stores` is the durable pair of term and vote with writes that may fail; `Counters` is
the ring of 1440 slots, proved to show the sliding window defined in `Windows`.

## Where the code differs from its documentation

Election Safety, Leader Append-Only, Log Matching, rising match indexes and the back-off bound hold in every
run. What is committed and applied needs more than the code checks. Each gap below has a run of the model that
falls into it, and a condition that says exactly when one does not.

- **Superseded leader objects: replies.** A reply handler checks that some leader role is in place, not that its
  own object is that role (internal/leader_role.go:555, 724). `StaleLeader.CommitLost` is a run in which such an
  object breaks Leader Completeness in the single step it takes. `Superseded.SafeExactly`: a leader object of a
  node that leads can be trusted with the commit index, in every state that satisfies the invariants and looks the
  same to it, if and only if it is of the node's current term or does not move the index. So `Timely` forbids
  exactly that: a superseded object's reply that moves the commit index. Leader Completeness assumes it of the one
  step that commits.
- **Superseded leader objects: requests.** Such an object also sends: a retry takes the node's present log and
  commit index but the object's own term (internal/leader_role.go:609-686). None of the properties above minds,
  but `LateRequest.CommittedLost` is a run, with whole tails and timely replies, in which one such retry makes a
  follower commit in the name of an old term what the call that had failed, of that same term, then takes away.
  `CommitCap.ReachExact`: what a request says is committed is held by every leader from the request's own term on,
  whatever leaders there have been, if and only if the sender's log reaches back to that term (`ReachesBack`): the
  last entry said to be committed is of no later term, and the log has entries of every term from the request's
  up to the present one. A request of the present term always passes.
- **Follower commit cap.** The Raft figure caps a follower's commit index at the index of the last new
  entry (SPECIFICATION.md:387-388); the code caps it at the follower's own last index
  (internal/raft.go:528-530). Because of the batch limit and because a failed call sends the next index
  back to 1, the code's rule can commit a lost entry. `PartialBatch.CommitsDisagree` is such a run, with
  a batch limit of one and one failed call. `CommitCap.CapExact`: the rule is sound for every follower that a
  request may reach if and only if the request is covered (`CoversFrom`), that is, if at every index d from the end
  of the request up to its commit index, entry d is of the leader's own term already, or entry d + 1 has the same
  term as entry d and the leader's log skips no term between that one and its own.
- **Both together.** `CommitCap.Checked` is what a sender could look up in its own log before it sends, and
  `CheckExact` says that the check is exact. Claims on follower commits are for runs in which every request is
  covered (`CoveredRun`), by superseded objects and others. Runs in which every request passes the check are
  (`StateMachineSafety.CheckedRun`); so are runs in which every request is of its sender's current term and carries
  its whole tail (`WholeTailRun`).
- **Start-up replay.** README.md:282 promises that entries are applied only after commit, but a restarted node feeds
  its whole log to the state machine, committed or not (internal/raft.go:113-141). A crash is harmless if the
  node's commit index, or its last applied index after harmless crashes only, has reached its last index
  (`Restart`, `rash`); the claims on what has been applied cover every node that has only ever crashed like that.
  `RashReplay.AppliedDisagree` is a covered run in which a node that had not keeps a lost entry in its state machine
  for good. `StateMachineSafety.FedSurvives` says exactly when what has been fed stays the start of the log: when no
  accepted request cuts at or below the last applied index.
- **Proposals that read as something else.** A proposal is written in one of two layouts that only its bytes tell
  apart (internal/log_entry.go:19-86), and what is applied is what the bytes read as. `OwnAnswers.OwnAnswer`: the
  answer to what was stored is the answer to the caller's own entry, whatever the state machine has been fed, if
  and only if the entry is clear (`LogEntryCodec.Clear`): its client id has 1 to 1024 bytes, or there is neither id
  nor number and the data does not start like a client header. `OwnAnswers.StrayUnanswered` is a body of thirteen
  bytes that is neither fed nor answered, and `StrayHeader` says what happens to all of its kind; a client with a
  longer id loses its session, and its retried request is fed twice (`LongIdTwice`).
- **Snapshots carry no sessions.** internal/session.go:67 describes the table's encoding as made for snapshots, but
  taking a snapshot saves only the state machine (internal/raft.go:291-309) and start-up makes a new table. After
  that a request can be applied twice (`Sessions.FedTwice`); `Sessions.RestoredExactly` says that this happens if and
  only if a request fed before the snapshot comes again among the entries after it.

## Model

| member | source | states |
|---|---|---|
| `Safety.ElectionSafety` | internal/candidate_role.go:149-257 | at any two moments of any run, two nodes that lead the same term are the same node: with stale candidate objects, late votes, superseded leader objects, and crashes between persisting a term and its vote |
| `Safety.LeaderAppendOnly` | internal/leader_role.go:47-104 | in any run a leader's log only grows within its term, also when the node becomes leader twice in one term |
| `Safety.LogMatching` | internal/follower_role.go:187-219 | in any run, logs of any nodes at any two moments that agree on the term at an index agree on all entries up to it, and terms never decrease along a log, though entries are compared by term only |
| `Safety.LeaderCompleteness` | internal/raft.go:409-421 | once a node that leads afterwards has raised its commit index to N in a step that is not a superseded object's, the log of every leader of a later term, at any moment, starts with its first N entries; crashes allowed, and superseded objects may do what they like in every other step |
| `Safety.ChosenHeld` | internal/follower_role.go:113-145 | what a majority acknowledged in the term that wrote it is in the log of every leader of a later term (the induction over the order in which terms were won) |
| `Safety.EarlierLeader` | internal/raft.go:409-421 | by the up-to-date check, every leader of a later term than a chosen entry's follows one that had won before it, and holds the chosen entries if that one does |
| `Safety.LeaderCommitChosen` | internal/leader_role.go:391-439 | a node that leads after a timely step that raised its commit index has moved it, in that step, to an entry of its own term that a majority has acknowledged |
| `Preservation.StepInv` | internal/raft.go:202-240 | every step of the cluster, of current and superseded objects alike, keeps all invariants on votes, ballots, leaders, logs, requests, replies, acknowledgements and match indexes, and only adds to the history |
| `Preservation.AdvanceChosen` | internal/leader_role.go:391-439 | a commit index advanced by an object of the current term is the index of an own-term entry acknowledged by a majority |
| `Preservation.CountedWin` | internal/candidate_role.go:244-252 | a majority of counted votes makes a leadership; in a term already won only the same node can win again |
| `Preservation.TakeShape` | internal/follower_role.go:187-219 | an accepted request leaves the follower's log unchanged, already holding what was sent, or makes it exactly the leader's log up to the end of the request, cut at the first departure |
| `Preservation.BuiltOk` | internal/leader_role.go:445-527 | every request a leader object builds, in its own term or later, is a stretch of the log of the node's current term, or looks beyond it and fits nowhere |
| `Acknowledgements.AckStored` | internal/follower_role.go:88-96 | an acknowledgement is never given for entries the node did not hold, in that term, at that moment |
| `Acknowledgements.MatchStored` | internal/leader_role.go:561-573 | a leader's match index k for p means p has stored the leader's first k entries while in the leader's term |
| `Acknowledgements.CommitBacked` | internal/leader_role.go:391-439 | every commit by a leader in a timely step is backed by a majority whose members each stored the leader's log up to the commit index in that term |
| `Acknowledgements.MatchRises` | internal/leader_role.go:568-570 | in any run no match index ever goes down within a leadership |
| `StateMachineSafety.CommittedAgree` | internal/raft.go:521-542 | State Machine Safety: in a covered run, with requests of superseded leader objects among them, two nodes, at two moments, hold the same entries up to any index both have committed; crashes allowed |
| `StateMachineSafety.CommittedKept` | internal/follower_role.go:197-204 | a node that does not crash keeps its committed prefix, its commit index never falls and never exceeds its last index |
| `StateMachineSafety.CommittedInLeaders` | internal/raft.go:409-421 | what any node, leader or follower, has committed is in the log of every leader of its term or a later one from then on |
| `StateMachineSafety.AppliedAgree` | internal/follower_role.go:233-267 | nodes that have never come back from a crash with both the commit index and the last applied index short of their log have fed their state machines the same entries in the same order, as far as both have got; clean restarts allowed, any number of them |
| `StateMachineSafety.MachinesAgree` | internal/leader_role.go:341-388 | their machines have had the same inputs, duplicates left out, and at the same last applied index the same session table and answers |
| `StateMachineSafety.StepCommitInv` | internal/follower_role.go:88-94 | every step of a covered run keeps every node's commit index, what it has applied, and every commit index under way in a request, of whichever term, backed: held by every leader from that term on |
| `StateMachineSafety.TakeKeepsBacked` | internal/follower_role.go:197-204 | taking a covered request, also a superseded object's, never cuts the log within a part that is backed, so neither at or below the commit index nor below what has been applied |
| `StateMachineSafety.PassesCovers` | internal/leader_role.go:499-525 | what the sender finds in its own log is enough: a request that passes the check is covered |
| `StateMachineSafety.CheckedRun` | internal/leader_role.go:499-525 | so every run of timely steps in which every request passes is a covered run |
| `StateMachineSafety.WholeTailRun` | internal/leader_role.go:499-525 | and so is every run of timely, current steps in which the batch limit never bites |
| `StateMachineSafety.FedSurvives` | internal/follower_role.go:187-267 | what a node has fed its state machine is still the start of its log after an accepted request if and only if the request does not cut at or below the last applied index |
| `CommitCap.TailPrefix` | internal/follower_role.go:76-92 | a request that reaches into its leader's own term leaves the follower's entire log a prefix of the leader's |
| `CommitCap.CapExact` | internal/raft.go:528-530 | the follower's cap is sound for every follower log that leaders can have written if and only if the request is covered: from its end to its commit index the leader's log neither changes its term nor leaves out one before its own |
| `CommitCap.ReachExact` | internal/leader_role.go:609-686 | what a request carries as committed under some term is held by every leader there can have been from that term on if and only if the sender's log reaches back to it: the last such entry is no later, and no term since is missing from the log |
| `CommitCap.CheckExact` | internal/raft.go:528-530 | the sender's check passes if and only if every follower commits only the sender's entries on accepting the request and every leader from the request's term on holds them |
| `PartialBatch.CommitsDisagree` | internal/leader_role.go:663-665 | a run in which every batch has one entry, exactly one call fails and no object is superseded, and two nodes commit different entries at one index |
| `StaleLeader.CommitLost` | internal/leader_role.go:555-580 | a run, with a batch limit of two on one node and of one on another, in which exactly one step is not timely, a late reply handled by a superseded leader object, and which commits an entry that a later leader does not hold |
| `Superseded.SafeExactly` | internal/leader_role.go:555-580 | a leader object of a node that leads commits only what a majority has acknowledged in the node's term, in every state that satisfies the invariants and looks the same to it, if and only if it is of that term or does not move the commit index |
| `LateRequest.CommittedLost` | internal/leader_role.go:609-686 | a run with whole tails and timely replies in which exactly one request is sent by a superseded leader object, the retry after its failed call, and is the one that is not covered; a follower then loses two of the three entries it has committed and applied |
| `RashReplay.AppliedDisagree` | internal/raft.go:113-141 | a covered run with whole tails in which a node that replayed uncommitted entries at start-up has for good applied other entries than another node |
| `Progress.FollowerCatchesUp` | internal/follower_role.go:76-96 | a follower that accepts a request reaching the leader's last index holds the leader's whole log afterwards, and nothing else if its own did not end in a later term, has committed what the leader had, and has applied all of it |
| `Progress.LeaderCommitsAll` | internal/leader_role.go:394-438 | a leader whose match indexes have reached its last index on a majority commits its whole log |
| `Elections.CanLead` | internal/candidate_role.go:149-257 | any run can be continued so that a node which no member of some quorum has reason to refuse leads the next term, with its own log and a no-op |
| `Elections.CanCommit` | internal/leader_role.go:541-612 | and, with two nodes or more, so that it then commits and applies a given command: elections, requests, a failed call where a peer is not at the start, replies and the commit rule together |
| `Commitment.CandidateExact` | internal/leader_role.go:394-417 | for any cluster size the sorted match indexes' element at n - n/2 - 1 is at least k exactly when a majority of nodes reach k |
| `Commitment.AdvanceExact` | internal/leader_role.go:394-438 | on a log with sorted terms, checking only that element advances the commit index exactly when some N satisfies Figure 2's rule, and then to the greatest such N |
| `Quorums.QuorumsMeet` | internal/candidate_role.go:21-32 | any two majorities share a node |
| `Logs.AppendExact` | internal/follower_role.go:187-219 | what is sent replaces the log exactly from the first entry that is missing or has another term; if there is none nothing changes and a longer log keeps its suffix |
| `Logs.AppendTwice` | internal/follower_role.go:187-219 | a request delivered twice does what it does once |
| `Logs.AppendFromLeader` | internal/follower_role.go:187-219 | against a log it matches, a stretch of the leader's log leaves the follower with that stretch and everything before it |
| `FastBackOff.ProbeProgress` | internal/leader_role.go:587-603 | each rejection moves the next index strictly back, at least to the end of the follower's log, and the next call meets the divergence or a strictly smaller conflict term |
| `FastBackOff.RejectionProbes` | internal/leader_role.go:587-606 | in the cluster a rejection that carries what the follower reports moves exactly that peer's next index, to where the probe says |
| `FastBackOff.ReportIsReply` | internal/follower_role.go:302-321 | what a node with its full log reports on a refusal is the reply the probe reckons with |
| `FastBackOff.HeldProbeProgress` | internal/leader_role.go:587-603 | with parts of both logs dropped, a refusal above the follower's boundary still moves the next index strictly back, and not below 1 |
| `FastBackOff.RunStartFacts` | internal/follower_role.go:302-321 | the follower's walk finds the first index of the conflicting term |
| `FastBackOff.LastIndexOfTermFacts` | internal/log.go:31-64 | on a sorted log the leader's walk finds the last entry of a term, or rightly none, though it stops at the first smaller term |
| `FastBackOff.ConflictsFall` | internal/follower_role.go:302-321 | consecutive conflict terms strictly fall, and all are terms of the follower's log, after a first 0 exactly if the first call looked beyond the follower's end |
| `FastBackOff.SettleConverges` | internal/leader_role.go:587-603 | rejections number at most one more than the distinct terms in the follower's log; at acceptance the logs agree up to the previous index, and after any rejection that is the first point of divergence or the end of one log |
| `FastBackOff.ClusterSettles` | internal/leader_role.go:587-606 | this holds between any leader and any node of any reachable state |
| `RaftNode.Raft.constructor` | internal/raft.go:66-146 | start-up restores term, vote and log, takes machine, commit index and last applied index from a snapshot if there is one, with an empty session table, and replays every later entry; the node is sound exactly if the snapshot fits the log |
| `RaftNode.Raft.BecomeFollower` | internal/raft.go:460-475 | stepping down adopts a higher term with no vote, keeps the vote in the same term, and starts a new role epoch |
| `RaftNode.Raft.EnterLeadership` | internal/leader_role.go:47-95 | becoming leader sets up the books peer by peer and writes the no-op before anything is sent |
| `RaftNode.Raft.HandleRequestVote` | internal/follower_role.go:113-145 | with a compacted log too, a vote is granted exactly if the ballot's term is not older, its log is up to date, and its term is newer or the node is a follower that has voted for nobody else; a newer term is adopted by every role, and nothing but term, vote and role changes, and on a refusal in the node's own term nothing at all |
| `Handlers.VoteExact` | internal/follower_role.go:113-145 | for any node and ballot: when exactly a vote is granted, and the term, vote and role afterwards, also on a refusal |
| `RaftNode.Raft.StartElection` | internal/candidate_role.go:149-165 | a term is opened by two writes and a vote for itself, and a single node wins at once, writes its no-op and tries to commit |
| `RaftNode.Raft.HandleVoteReply` | internal/candidate_role.go:230-256 | only votes of the current term count, and the majority-th makes a leader that at once tries to commit |
| `RaftNode.Raft.CheckLogConsistency` | internal/follower_role.go:269-322 | on or above the snapshot boundary the check is the full log's; below it refuses; a conflict reports the index after the boundary, the missing index, or the start of the run of equal terms |
| `RaftNode.Raft.AppendEntries` | internal/follower_role.go:187-219 | the loop of reads, comparisons, truncation and writes does what `Logs.Append` says, and below the dropped part of the log puts everything behind the rest |
| `RaftNode.Raft.TruncateAndWrite` | internal/follower_role.go:197-231 | truncation keeps exactly the entries before the conflict and writes the rest after them |
| `RaftNode.Raft.SetCommitIndex` | internal/raft.go:521-542 | the commit index is capped by the node's last index and never falls |
| `RaftNode.Raft.ApplyToStateMachine` | internal/follower_role.go:233-267 | everything committed and not yet applied is fed, in order, through the duplicate check |
| `RaftNode.Raft.FeedEntry` | internal/follower_role.go:246-263 | one turn of the loop is one step of the fold `Sessions.Feed` |
| `RaftNode.Raft.ReplayLog` | internal/raft.go:113-141 | the start-up loop computes the same fold over everything after the snapshot |
| `RaftNode.Raft.TryToAdvanceCommitIndex` | internal/leader_role.go:391-439 | the loop over match indexes, the sort and the term check leave everything but the commit index as it was; that goes to the greatest index a majority has reached, if Figure 2's rule allows it and its entry is still held; and, with terms in order, it moves exactly if the rule allows some held N, and to the greatest such N |
| `Compaction.AdvanceHeldFacts` | internal/leader_role.go:391-439 | for any node and match indexes, with the start of the log dropped: what happens to the commit index, said by Figure 2's rule alone, and that nothing else changes |
| `Compaction.AdvanceHeldFull` | internal/leader_role.go:391-439 | a node whose commit index is not behind what it has dropped commits exactly what it would with its full log |
| `Compaction.WonCommits` | internal/leader_role.go:73-103 | a new leader of several nodes commits nothing at once, and one that is alone everything |
| `RaftNode.Raft.HandlePropose` | internal/leader_role.go:233-266 | a proposal appends one entry of the current term, the one that its encoding reads as, and the leader counts itself |
| `RaftNode.Raft.BuildRequest` | internal/leader_role.go:445-527 | with a compacted log a request is the one the full log gives, or none if the peer needs a snapshot |
| `RaftNode.Raft.LastIndexOf` | internal/log.go:31-64 | the backward loop finds what the walk over the full log finds, if that has not been dropped |
| `Compaction.HeldIndexOfTerm` | internal/log.go:31-64 | the walk over the entries still held finds the full log's last entry of a term if it is among them, and otherwise nothing |
| `RaftNode.Raft.HandleAppendReply` | internal/leader_role.go:541-612 | a higher term steps down, a reply of another term or without a leader role changes nothing, a success raises the peer's match index, sets its next index behind it and tries to commit, and a rejection moves only that peer's next index: just behind the last entry still held of the conflicting term, or else to the conflict index, never below 1 |
| `Compaction.BackOffHeldFull` | internal/leader_role.go:587-603 | with nothing dropped the back-off is that of the full log |
| `Compaction.BackOffHeldWent` | internal/leader_role.go:587-603 | where any rejection takes the next index, with part of the log dropped, said without the walk that finds it |
| `RaftNode.Raft.HandleAppendEntries` | internal/follower_role.go:54-97 | an older term and a leader's own term are refused and change nothing; any other request leaves a follower in its term, and is accepted exactly if it starts at 0, or at the snapshot boundary or above with the entry before it in the log; then the log is replaced from the first entry that is missing or differs, or, where the start of the log is gone, written behind the rest; a refusal touches neither log nor commit index and reports where to go on |
| `Compaction.HandleHeldExact` | internal/follower_role.go:54-97 | at the snapshot boundary or above, and at 0 with nothing dropped, a compacted node does with a request exactly what a full one does |
| `Compaction.HandleHeldJoins` | internal/follower_role.go:54-97 | which requests change nothing, which make the node a follower of their term, and which of them are accepted |
| `Compaction.HandleHeldWrites` | internal/follower_role.go:187-219 | what the log becomes: replaced from the first entry that is missing or differs, or, below what is held, with everything behind the rest |
| `Compaction.HandleHeldCommits` | internal/follower_role.go:88-94 | an accepted request raises the commit index to the leader's, capped by the log, and applies in order what is committed and was not applied |
| `Compaction.ReportedExact` | internal/follower_role.go:302-321 | a refusal reports the term found there and the first index of its run, looking no further back than the boundary |
| `RaftNode.Raft.BeginSnapshot` | internal/raft.go:253-293 | a snapshot covers exactly what has been applied, with the term of its last entry |
| `RaftNode.Raft.FinishSnapshot` | internal/raft.go:314-331 | taking a snapshot changes nothing in the node as seen through its full log, and leaves it sound exactly if the log still has the snapshot's last entry |
| `Sessions.ReplayBatches` | internal/follower_role.go:233-267 | however entries are split into batches the machine and the session table end up the same |
| `Sessions.ReplayExactlyOnce` | internal/leader_role.go:355-367 | the state machine is fed, in log order, exactly the data without a session and the data whose number exceeds every earlier one of its client; the table holds each client's greatest number |
| `Sessions.FedExactly` | internal/leader_role.go:353-367 | one more entry is fed exactly if it has data and either no client or a number above every one under which its client sent data before |
| `Sessions.DueIncreases` | internal/session.go:29-48 | of two requests of one client that are fed, the later has the greater number |
| `Sessions.RestoredExactly` | internal/raft.go:83-141 | with the session table lost at start-up the state machine is fed what it would have been fed with it if and only if no request fed before the snapshot comes again after it; otherwise it is fed more |
| `Sessions.FedTwice` | internal/raft.go:116-141 | one request, covered by a snapshot and retried after it, is fed twice |
| `Answers.DueAnswer` | internal/leader_role.go:353-367 | a request that is fed is answered with the machine's answer after exactly what was due up to it |
| `Answers.RetryAnswer` | internal/session.go:42-44 | a duplicate is answered like its client's latest request fed before it, whose number is no smaller |
| `Proposals.Leader.HandlePropose` | internal/leader_role.go:199-262 | an applied duplicate is answered at once, a call that means another role epoch or an expired lease is refused, and otherwise one new waiter is registered for what is stored of its entry |
| `Proposals.Leader.ApplyNext` | internal/leader_role.go:339-388 | exactly the callers waiting at the applied index are answered, each with the machine's answer to what was stored of its own entry, whose index is committed |
| `Proposals.Leader.ApplyCommitted` | internal/leader_role.go:341-388 | the loop answers exactly the callers waiting up to the commit index, so with `StateMachineSafety.CommittedInLeaders` no answered entry is ever lost |
| `Proposals.ToldOwn` | internal/leader_role.go:370-385 | a caller that was answered for a clear entry was given the machine's answer to that very entry |
| `OwnAnswers.OwnAnswer` | internal/leader_role.go:234-241 | the answer to what was stored is the answer to the caller's own entry, for every machine, if and only if the entry is clear |
| `OwnAnswers.StrayHeader` | internal/log_entry.go:59-86 | data that reads as a client header is not fed: its caller gets no answer, the client's last one, or one for the rest of the data |
| `OwnAnswers.StrayUnanswered` | main.go:123-131 | thirteen bytes, posted without a session, that should be fed and answered and are neither |
| `OwnAnswers.LongIdTwice` | internal/log_entry.go:59-86 | a request under a client id of more than 1024 bytes has no session once stored, and is fed twice when retried |
| `Proposals.Leader.OnExit` | internal/leader_role.go:106-116 | leaving the role closes exactly the channels still waiting, each once |
| `Proposals.Leader.StepDown` | internal/raft.go:460-475 | leaving the role closes every waiting caller's channel before the epoch moves on, and no answer given changes |
| `Proposals.Leader.LaterRole` | internal/leader_role.go:292-333 | whatever later roles do to the log, what callers of this one were told stays the answer to what was stored of their own committed entry |
| `Proposals.Leader.Withdraw` | internal/leader_role.go:270-289 | a caller that gives up is taken out of its list alone, by swapping with the last; one already answered or closed is left as it is |
| `Proposals.SwapOutRemoves` | internal/leader_role.go:274-280 | swapping with the last element and shortening removes exactly that element |
| `Stores.Store.IncrementCurrentTerm` | internal/store.go:54-66 | the term goes up by one in memory and file together, or not at all |
| `Stores.Store.SetVotedFor` | internal/store.go:106-119 | the vote changes in memory and file together, or not at all |
| `Stores.Store.SetCurrentTermAndVotedFor` | internal/store.go:121-138 | both change in memory and file together, or neither |
| `Stores.Store.Vote` | internal/follower_role.go:126-145 | with failing writes and crashes, no two candidates are ever given a vote of one term, and none is given that is not on disk |
| `Stores.Store.VoteForSelf` | internal/candidate_role.go:149-162 | a failure or crash between the two writes leaves the old vote in the new term and gives no vote |
| `LogEntryCodec.EncodeDecode` | internal/log_entry.go:19-86 | every byte string of at least 8 bytes decodes, and encodes back to itself |
| `LogEntryCodec.DecodeEncode` | internal/log_entry.go:19-86 | decoding an encoded entry keeps the term, and gives the entry back if and only if its client id has 1 to 1024 bytes, or id and number are empty and zero and its data does not read as a client header |
| `LogEntryCodec.Layout` | internal/log_entry.go:19-48 | which bytes hold what: the term in eight, then either the data alone, or the id's length in four, the id, the number in eight, and the data |
| `LogEntryCodec.ClearExactly` | internal/log_entry.go:59-86 | which entries are clear, from the first four bytes and the lengths alone |
| `LogEntryCodec.StoredAgain` | internal/follower_role.go:221-231 | an entry read from one log and written to another reads the same there |
| `LogEntryCodec.Serialize` | internal/log_entry.go:19-48 | the buffer filled by running offset is the encoding |
| `Bytes.PutGet` | internal/log_entry.go:32-40 | reading a little-endian number and writing it again gives the same bytes, and it fits its width |
| `Bytes.Digits` | internal/log_entry.go:32-40 | numbers are written with the least significant byte first |
| `SessionTables.DecodeEncode` | internal/session.go:70-137 | in whatever order the map is visited, reading back gives the same clients and numbers with results cleared, and consumes exactly the bytes written |
| `SessionTables.LayoutOfOne` | internal/session.go:84-97 | a count in four bytes, and for a client the length of its id in four, the id, and its number in eight |
| `SessionTables.SameSize` | internal/session.go:74-82 | the size added up in one visiting order is the size needed in another |
| `SessionTables.SessionTable.IsDuplicate` | internal/session.go:29-48 | a number not above the client's latest is a duplicate, answered with the remembered result; an empty id never is |
| `SessionTables.SessionTable.Record` | internal/session.go:50-65 | only a strictly greater number replaces a client's session |
| `SessionTables.SessionTable.Serialize` | internal/session.go:70-97 | the two passes, each in its own visiting order, fill a buffer of exactly the right size with the encoding |
| `SessionTables.SessionTable.Deserialize` | internal/session.go:100-137 | too few bytes leave the table as it was; otherwise it is emptied and holds what was read before the first failure |
| `SessionTables.ByteReader.ReadBytes` | internal/session.go:167-175 | a read past the end fails and moves nothing |
| `Windows.LiveExactly` | counter/counter.go:42-70 | a hash is live exactly if some call counted it less than 1440 virtual minutes ago |
| `Windows.AcceptedExactly` | counter/counter.go:46-50 | a call is accepted exactly if the sum of all that was counted before and its own number lies between 0 and 2^63 - 1 |
| `Windows.CountedExactly` | counter/counter.go:42-70 | a call is counted exactly if it is accepted and no call of its hash was counted less than 1440 virtual minutes before it |
| `Windows.RejectedNothing` | counter/counter.go:46-50 | a rejected call changes nothing, and time stands still |
| `Windows.CountedApart` | counter/counter.go:58-66 | two counts of one hash are at least 1440 virtual minutes apart |
| `Windows.ValueIsSum` | counter/counter.go:46-67 | the value is the exact sum of what was counted and never negative, because a sum that would wrap round int64 is refused |
| `Windows.VirtualTime` | counter/counter.go:51-57 | virtual time is real time less the whole days that pass between accepted calls |
| `Counters.SlotsPartition` | counter/counter.go:61-66 | the slots are a partition of the hashes present |
| `Counters.ClearTicks` | counter/counter.go:72-79 | emptying the slot of the coming minute is the same as letting one minute pass |
| `Counters.Counter.ClearMinute` | counter/counter.go:72-79 | the loop over one slot removes its hashes from the slot and from the set of those present, and nothing else |
| `Counters.Counter.ClearMinuteRange` | counter/counter.go:81-93 | the loop round the ring moves the window forward by the distance to the new minute |
| `Counters.Counter.Increment` | counter/counter.go:42-70 | the ring, the set and the value after any calls are those of the window after the same calls; a call is accepted exactly if the value plus its number is between 0 and the greatest int64, and a rejected one changes nothing |

## Left out

- Safety.LeaderCompleteness: assumes that the committing step is not a superseded object's; `Superseded.SafeExactly` and `StaleLeader.CommitLost` show that this cannot be dropped.
- StateMachineSafety.CommittedAgree: assumes covered runs; `CheckExact`, `PartialBatch.CommitsDisagree` and `LateRequest.CommittedLost` show why. `CheckExact` is exact for a single request against every log that followers and leaders can have, not for a whole run.
- StateMachineSafety.AppliedAgree: leaves out nodes that have come back from a crash not knowing their whole log to be committed; `RashReplay.AppliedDisagree` shows why.
- Superseded.SafeExactly: ranges over all states that satisfy the invariants, not only over those that runs reach.
- Elections.CanCommit: is for two nodes or more; a single node commits as it wins (`Compaction.WonCommits`).
- RaftNode.Raft.HandleVoteReply: each reply is handled once, as in the program.
- RaftNode.Raft.constructor: the log library drops only what a snapshot covers, and a snapshot that cannot be read counts as none.
- Proposals.Leader.Withdraw: a caller whose context ends in the instant it is answered may still report the context error; the model only says what happens to its channel.
- Restarting from a snapshot in the cluster: there a node replays its whole log; the class shows what start-up does with a snapshot on one node.
- Installing snapshots, which keeps a log suffix without comparing terms and may reset the state machine behind the last applied index; snapshots appear only as local compaction and at start-up.
- The leader's applier goroutine runs outside the mutex; here each apply is one atomic step, and it does not overlap a later role's apply or a snapshot.
- Pre-vote counting, leases, ticks and randomized deadlines: elections may begin and leaders may step down at any moment, so liveness is not claimed, only that what `Elections` says can happen always can.
- HTTP, JSON, routes, flags, scripts and the in-flight markers; messages arrive unchanged or not at all.
- File formats of the store and the snapshot, fsync and rename; a file is replaced as a whole or not at all. The checksum functions of log entries have no caller.
- The log library is not part of this model: it is a contiguous sequence with a dropped beginning, truncation to an index drops what is up to it, and reads in range and writes do not fail.
- Node ids are the positions 0 to n - 1 in a list of distinct nodes that contains the node itself; the leader id kept for forwarding is left out, and so is forwarding.
- Terms, indexes and sequence numbers are unbounded except in the codecs; the counter's int64 sum wraps as in Go, and its minute argument is not negative.
- Hashing of counter ids, counter snapshots, and the wall clock that makes the default state machine differ between nodes; agreement is stated on its inputs.
- The library sort in the commit rule is taken as an insertion sort, and the compare-and-swap loop on the commit index as a plain update under the mutex.
- Enable, disable, shutdown and unhealthy states.
