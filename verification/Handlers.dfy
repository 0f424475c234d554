/** What the handlers of module Nodes do, said field by field and without those functions. */
module Handlers {
  import opened Types
  import opened Logs
  import opened Quorums
  import opened Nodes
  import Commitment

  // ----- roles and votes -----

  /** A vote is granted exactly if the ballot's term is not older, the candidate's log is up to date, and either
      the term is newer or the node is a follower that has voted for nobody else in it.  A newer term is adopted
      either way, and nothing but the vote, the term and the role changes. */
  lemma VoteExact(v: Node, b: Ballot)
    ensures var (v', granted) := HandleRequestVote(v, b);
      && (granted <==>
            && b.term >= v.currentTerm
            && (b.lastTerm > TermAt(v.log, |v.log|) || (b.lastTerm == TermAt(v.log, |v.log|) && b.lastIndex >= |v.log|))
            && (b.term > v.currentTerm || (v.role.Follower? && (v.votedFor.None? || v.votedFor.value == b.candidate))))
      && v'.currentTerm == Max(v.currentTerm, b.term)
      && v'.votedFor == (if granted then Some(b.candidate) else if b.term > v.currentTerm then None else v.votedFor)
      && v'.role == (if b.term > v.currentTerm then Follower else v.role)
      && v'.roleId == (if b.term > v.currentTerm then v.roleId + 1 else v.roleId)
      && v'.counted == (if b.term > v.currentTerm then {} else v.counted)
      && v'.log == v.log && v'.leaderships == v.leaderships && v'.commitIndex == v.commitIndex
      && v'.lastApplied == v.lastApplied && v'.applied == v.applied && v'.rash == v.rash
  {
  }
}
