/** The durable pair of term and vote.  Every setter changes memory, writes the file, and undoes the
    change if the write fails.  The file is replaced as a whole or not at all. */
module Stores {
  import opened Types

  datatype Pair = Pair(term: nat, vote: Option<nat>)

  class Store {
    var currentTerm: nat
    var votedFor: Option<nat>
    var file: Pair
    /** The votes given out so far, by term. */
    ghost var given: map<nat, nat>

    /** Memory and file agree; no vote given is of a later term, and one of this term is the vote on record. */
    ghost predicate Valid()
      reads this
    {
      && file == Pair(currentTerm, votedFor)
      && forall t | t in given :: t <= currentTerm && (t == currentTerm ==> votedFor == Some(given[t]))
    }

    constructor ()
      ensures Valid() && currentTerm == 0 && votedFor == None && given == map[]
    {
      currentTerm, votedFor, file, given := 0, None, Pair(0, None), map[];
    }

    method Write(fails: bool) returns (ok: bool)
      modifies this`file
      ensures ok == !fails && file == if ok then Pair(currentTerm, votedFor) else old(file)
    {
      if !fails {
        file := Pair(currentTerm, votedFor);
      }
      return !fails;
    }

    /** The vote of the term before stays on record until SetVotedFor. */
    method IncrementCurrentTerm(fails: bool) returns (ok: bool)
      requires Valid()
      modifies this`currentTerm, this`file
      ensures Valid() && ok == !fails && currentTerm == old(currentTerm) + if ok then 1 else 0
    {
      currentTerm := currentTerm + 1;
      ok := Write(fails);
      if !ok {
        currentTerm := currentTerm - 1;
      }
    }

    method SetVotedFor(vote: nat, fails: bool) returns (ok: bool)
      requires Valid() && (currentTerm in given ==> given[currentTerm] == vote)
      modifies this`votedFor, this`file
      ensures Valid() && ok == !fails && votedFor == if ok then Some(vote) else old(votedFor)
    {
      var previous := votedFor;
      votedFor := Some(vote);
      ok := Write(fails);
      if !ok {
        votedFor := previous;
      }
    }

    method SetCurrentTermAndVotedFor(term: nat, vote: Option<nat>, fails: bool) returns (ok: bool)
      requires Valid() && term > currentTerm
      modifies this`currentTerm, this`votedFor, this`file
      ensures Valid() && ok == !fails
      ensures (currentTerm, votedFor) == if ok then (term, vote) else (old(currentTerm), old(votedFor))
    {
      var previousTerm, previousVote := currentTerm, votedFor;
      currentTerm, votedFor := term, vote;
      ok := Write(fails);
      if !ok {
        currentTerm, votedFor := previousTerm, previousVote;
      }
    }

    /** A crash loses memory; start-up reads the file. */
    method Restart()
      requires Valid()
      modifies this`currentTerm, this`votedFor
      ensures Valid() && currentTerm == old(currentTerm) && votedFor == old(votedFor)
    {
      currentTerm, votedFor := file.term, file.vote;
    }

    /** No vote ever given is taken back or given again to another candidate. */
    twostate predicate VotesKept()
      reads this
    {
      forall t | t in old(given) :: t in given && given[t] == old(given[t])
    }

    /** A follower's answer to a vote request of its own term; a vote that could not be saved is not given. */
    method Vote(candidate: nat, upToDate: bool, fails: bool) returns (granted: bool)
      requires Valid()
      modifies this
      ensures Valid() && VotesKept() && currentTerm == old(currentTerm)
      ensures granted <==> (old(votedFor) == None || old(votedFor) == Some(candidate)) && upToDate && !fails
      ensures given == if granted then old(given)[currentTerm := candidate] else old(given)
    {
      if votedFor.Some? && votedFor.value != candidate {
        return false;
      }
      if !upToDate {
        return false;
      }
      granted := SetVotedFor(candidate, fails);
      if granted {
        given := given[currentTerm := candidate];
      }
    }

    /** A candidate opens a term with two writes.  If the second fails, or the node crashes before it,
        the new term begins with the old vote on record; that can only make the node refuse. */
    method VoteForSelf(id: nat, failsTerm: bool, crashes: bool, failsVote: bool) returns (started: bool)
      requires Valid()
      modifies this
      ensures Valid() && VotesKept() && started == (!failsTerm && !crashes && !failsVote)
      ensures currentTerm == old(currentTerm) + if failsTerm then 0 else 1
      ensures votedFor == if started then Some(id) else old(votedFor)
      ensures given == if started then old(given)[currentTerm := id] else old(given)
    {
      started := IncrementCurrentTerm(failsTerm);
      if !started {
        return;
      }
      if crashes {
        Restart();
        return false;
      }
      started := SetVotedFor(id, failsVote);
      if started {
        given := given[currentTerm := id];
      }
    }
  }
}
