/** What a client is told: the answer the apply loop gives for each entry. */
module Answers {
  import opened Types
  import opened Sessions

  /** The result of one turn of the apply loop: nothing for an entry without data, the remembered
      result for a duplicate, and the state machine's answer otherwise. */
  function AnswerTo(m: Machine, e: LogEntry): Option<Answer> {
    if e.data == [] then None
    else if IsDuplicate(m.sessions, e.clientId, e.sequenceNumber) then Some(m.sessions[e.clientId].result)
    else Some(Feed(m, e).fed)
  }

  /** The answer for entry i, when the entries are applied from the start. */
  function AnswerAt(entries: seq<LogEntry>, i: nat): Option<Answer>
    requires i < |entries|
  {
    AnswerTo(Replay(NewMachine, entries[..i]), entries[i])
  }

  lemma DueFeeds(entries: seq<LogEntry>, i: nat)
    requires i < |entries|
    ensures var m, e := Replay(NewMachine, entries[..i]), entries[i];
      Due(entries, i) <==> e.data != [] && !IsDuplicate(m.sessions, e.clientId, e.sequenceNumber)
  {
    ReplayExactlyOnce(entries[..i]);
    DueOfPrefix(entries, i + 1, i);
    assert entries[..i + 1][..i] == entries[..i];
    DueOrDuplicate(Replay(NewMachine, entries[..i]), entries[..i + 1]);
  }

  /** An entry that is due is answered with what the state machine says after everything due up to it. */
  lemma DueAnswer(entries: seq<LogEntry>, i: nat)
    requires i < |entries| && Due(entries, i)
    ensures AnswerAt(entries, i) == Some(AllDue(entries, i + 1))
  {
    DueFeeds(entries, i);
    ReplayExactlyOnce(entries[..i]);
    DuePrefix(entries, i, i);
  }

  /** Entry i is the due one with its client's greatest number among the first n. */
  ghost predicate Latest(entries: seq<LogEntry>, n: nat, i: nat, client: ClientId)
    requires n <= |entries|
  {
    i < n && FromSession(entries, i, client) && Due(entries, i) &&
    forall j | 0 <= j < n && FromSession(entries, j, client) :: entries[j].sequenceNumber <= entries[i].sequenceNumber
  }

  /** The table remembers, for each client, the answer its latest due entry was given. */
  ghost predicate Remembers(t: Table, entries: seq<LogEntry>, n: nat)
    requires n <= |entries|
  {
    forall client | client in t :: RemembersOne(t, entries, n, client)
  }

  ghost predicate RemembersOne(t: Table, entries: seq<LogEntry>, n: nat, client: ClientId)
    requires n <= |entries| && client in t
  {
    exists i :: (0 <= i < n && Latest(entries, n, i, client) && AnswerAt(entries, i) == Some(t[client].result) &&
                 entries[i].sequenceNumber == t[client].sequenceNumber)
  }

  lemma StaysLatest(entries: seq<LogEntry>, n: nat, client: ClientId)
    requires n < |entries| && client in Replay(NewMachine, entries[..n]).sessions
    requires RemembersOne(Replay(NewMachine, entries[..n]).sessions, entries, n, client)
    requires !(Due(entries, n) && FromSession(entries, n, client))
    ensures RemembersOne(Replay(NewMachine, entries[..n]).sessions, entries, n + 1, client)
  {
    var t := Replay(NewMachine, entries[..n]).sessions;
    var i :| 0 <= i < n && Latest(entries, n, i, client) && AnswerAt(entries, i) == Some(t[client].result) &&
      entries[i].sequenceNumber == t[client].sequenceNumber;
    assert Latest(entries, n + 1, i, client);
  }

  lemma FeedRemembers(entries: seq<LogEntry>, n: nat, client: ClientId)
    requires n < |entries|
    requires Remembers(Replay(NewMachine, entries[..n]).sessions, entries, n)
    requires client in Feed(Replay(NewMachine, entries[..n]), entries[n]).sessions
    ensures RemembersOne(Feed(Replay(NewMachine, entries[..n]), entries[n]).sessions, entries, n + 1, client)
  {
    DueFeeds(entries, n);
    var m := Replay(NewMachine, entries[..n]);
    var t := Feed(m, entries[n]).sessions;
    if Due(entries, n) && FromSession(entries, n, client) {
      assert Latest(entries, n + 1, n, client);
      assert AnswerAt(entries, n) == Some(t[client].result);
    } else {
      assert client in m.sessions && t[client] == m.sessions[client];
      StaysLatest(entries, n, client);
    }
  }

  lemma {:induction false} ReplayRemembers(entries: seq<LogEntry>, n: nat)
    requires n <= |entries|
    ensures Remembers(Replay(NewMachine, entries[..n]).sessions, entries, n)
  {
    if n > 0 {
      ReplayRemembers(entries, n - 1);
      assert entries[..n] == entries[..n - 1] + [entries[n - 1]];
      ReplayOne(NewMachine, entries[..n - 1], entries[n - 1]);
      var t := Replay(NewMachine, entries[..n]).sessions;
      forall client | client in t
        ensures RemembersOne(t, entries, n, client)
      {
        FeedRemembers(entries, n - 1, client);
      }
    }
  }

  /** Does entry i get the answer of its client's latest due entry before it, whose number is no smaller? */
  ghost predicate AnsweredLike(entries: seq<LogEntry>, i: nat, j: nat)
    requires i < |entries|
  {
    Latest(entries, i, j, entries[i].clientId) && entries[i].sequenceNumber <= entries[j].sequenceNumber &&
    AnswerAt(entries, i) == AnswerAt(entries, j)
  }

  /** An entry with data that is not due gets the answer of its client's latest due entry: a retry
      with the client's latest number gets the answer of the request it repeats. */
  lemma RetryAnswer(entries: seq<LogEntry>, i: nat)
    requires i < |entries| && entries[i].data != [] && !Due(entries, i)
    ensures exists j :: 0 <= j < i && AnsweredLike(entries, i, j)
  {
    var t, client := Replay(NewMachine, entries[..i]).sessions, entries[i].clientId;
    DueFeeds(entries, i);
    ReplayRemembers(entries, i);
    assert RemembersOne(t, entries, i, client);
    var j :| 0 <= j < i && Latest(entries, i, j, client) && AnswerAt(entries, j) == Some(t[client].result) &&
      entries[j].sequenceNumber == t[client].sequenceNumber;
    assert AnsweredLike(entries, i, j);
  }
}
