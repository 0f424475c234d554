/** Client sessions and the loop that feeds committed entries to the state machine. */
module Sessions {
  import opened Types

  type Command = seq<byte>
  type ClientId = seq<byte>

  /** The answer of a deterministic state machine is a function of everything it has been fed so far;
      keeping that sequence as the answer stands for every such machine at once. */
  type Answer = seq<Command>

  datatype Session = Session(sequenceNumber: nat, result: Answer)
  type Table = map<ClientId, Session>

  predicate IsDuplicate(t: Table, client: ClientId, number: nat) {
    client != [] && client in t && number <= t[client].sequenceNumber
  }

  function Record(t: Table, client: ClientId, number: nat, result: Answer): Table {
    if client == [] then t
    else if client !in t || number > t[client].sequenceNumber then t[client := Session(number, result)]
    else t
  }

  /** The state machine's input so far, and the session table beside it. */
  datatype Machine = Machine(fed: seq<Command>, sessions: Table)

  const NewMachine := Machine([], map[])

  /** One turn of the apply loop. */
  function Feed(m: Machine, e: LogEntry): Machine {
    if e.data == [] then m
    else if e.clientId == [] then m.(fed := m.fed + [e.data])
    else if IsDuplicate(m.sessions, e.clientId, e.sequenceNumber) then m
    else
      var fed := m.fed + [e.data];
      Machine(fed, Record(m.sessions, e.clientId, e.sequenceNumber, fed))
  }

  function Replay(m: Machine, entries: seq<LogEntry>): Machine {
    if entries == [] then m
    else Feed(Replay(m, entries[..|entries| - 1]), entries[|entries| - 1])
  }

  lemma ReplayOne(m: Machine, entries: seq<LogEntry>, e: LogEntry)
    ensures Replay(m, entries + [e]) == Feed(Replay(m, entries), e)
  {
    assert (entries + [e])[..|entries|] == entries;
  }

  /** However the entries are split into batches, the machine ends up the same. */
  lemma {:induction false} ReplayBatches(m: Machine, a: seq<LogEntry>, b: seq<LogEntry>)
    ensures Replay(m, a + b) == Replay(Replay(m, a), b)
  {
    if b == [] {
      assert a + b == a;
    } else {
      ReplayBatches(m, a, b[..|b| - 1]);
      assert (a + b)[..|a + b| - 1] == a + b[..|b| - 1];
    }
  }

  /** What the state machine has been fed is never taken back. */
  lemma {:induction false} ReplayOnlyAdds(m: Machine, entries: seq<LogEntry>)
    ensures m.fed <= Replay(m, entries).fed
  {
    if entries != [] {
      ReplayOnlyAdds(m, entries[..|entries| - 1]);
    }
  }

  // ----- exactly-once application -----

  /** Entry i carries data from a session. */
  predicate FromSession(entries: seq<LogEntry>, i: nat, client: ClientId)
    requires i < |entries|
  {
    entries[i].data != [] && entries[i].clientId == client != []
  }

  /** What should be fed: data without a session, and data whose number exceeds every earlier one of its client. */
  ghost predicate Due(entries: seq<LogEntry>, i: nat)
    requires i < |entries|
  {
    var e := entries[i];
    e.data != [] &&
    (e.clientId == [] ||
     forall j | 0 <= j < i && FromSession(entries, j, e.clientId) :: entries[j].sequenceNumber < e.sequenceNumber)
  }

  /** The data of the first k entries that are due, in log order. */
  ghost function AllDue(entries: seq<LogEntry>, k: nat): seq<Command>
    requires k <= |entries|
  {
    if k == 0 then []
    else if Due(entries, k - 1) then AllDue(entries, k - 1) + [entries[k - 1].data]
    else AllDue(entries, k - 1)
  }

  /** Entry i carries data of the client's session under this number. */
  ghost predicate HasNumber(entries: seq<LogEntry>, i: nat, client: ClientId, number: nat) {
    i < |entries| && FromSession(entries, i, client) && entries[i].sequenceNumber == number
  }

  /** The table holds, for each client with data among the entries, its greatest number. */
  ghost predicate HoldsMaxima(t: Table, entries: seq<LogEntry>) {
    && (forall i, client | 0 <= i < |entries| && FromSession(entries, i, client) ::
          client in t && entries[i].sequenceNumber <= t[client].sequenceNumber)
    && (forall client | client in t ::
          exists i :: HasNumber(entries, i, client, t[client].sequenceNumber))
  }

  lemma {:induction false} DuePrefix(entries: seq<LogEntry>, n: nat, k: nat)
    requires k <= n <= |entries|
    ensures AllDue(entries[..n], k) == AllDue(entries, k)
  {
    if k > 0 {
      DuePrefix(entries, n, k - 1);
      assert entries[..n][k - 1] == entries[k - 1];
      assert forall j, c | 0 <= j < k - 1 :: FromSession(entries[..n], j, c) <==> FromSession(entries, j, c);
    }
  }

  lemma FeedMaxima(m: Machine, entries: seq<LogEntry>)
    requires entries != [] && HoldsMaxima(m.sessions, entries[..|entries| - 1])
    ensures HoldsMaxima(Feed(m, entries[|entries| - 1]).sessions, entries)
  {
    var n := |entries| - 1;
    var front := entries[..n];
    var e := entries[n];
    var t := Feed(m, e).sessions;
    forall i, client | 0 <= i < |entries| && FromSession(entries, i, client)
      ensures client in t && entries[i].sequenceNumber <= t[client].sequenceNumber
    {
      if i < n {
        assert FromSession(front, i, client);
      }
    }
    forall client | client in t
      ensures exists i :: HasNumber(entries, i, client, t[client].sequenceNumber)
    {
      if client in m.sessions && t[client] == m.sessions[client] {
        var i :| HasNumber(front, i, client, m.sessions[client].sequenceNumber);
        assert HasNumber(entries, i, client, t[client].sequenceNumber);
      } else {
        assert HasNumber(entries, n, client, t[client].sequenceNumber);
      }
    }
  }

  /** With the maxima in the table, the duplicate check lets through exactly what is due. */
  lemma DueOrDuplicate(m: Machine, entries: seq<LogEntry>)
    requires entries != [] && HoldsMaxima(m.sessions, entries[..|entries| - 1])
    ensures var n := |entries| - 1; var e := entries[n];
      Due(entries, n) <==> (e.data != [] && !IsDuplicate(m.sessions, e.clientId, e.sequenceNumber))
  {
    var n := |entries| - 1;
    var front, e, t := entries[..n], entries[n], m.sessions;
    if e.clientId != [] && e.clientId in t {
      var i :| HasNumber(front, i, e.clientId, t[e.clientId].sequenceNumber);
      assert FromSession(entries, i, e.clientId);
    }
    forall j | 0 <= j < n && FromSession(entries, j, e.clientId)
      ensures e.clientId in t && entries[j].sequenceNumber <= t[e.clientId].sequenceNumber
    {
      assert FromSession(front, j, e.clientId);
    }
  }

  /** Exactly-once application: from a new machine, the state machine is fed exactly what is due, in
      log order, and the table ends with each client's greatest number. */
  lemma {:induction false} ReplayExactlyOnce(entries: seq<LogEntry>)
    ensures var m := Replay(NewMachine, entries);
      m.fed == AllDue(entries, |entries|) && HoldsMaxima(m.sessions, entries)
  {
    if entries != [] {
      var n := |entries| - 1;
      ReplayExactlyOnce(entries[..n]);
      DuePrefix(entries, n, n);
      var m := Replay(NewMachine, entries[..n]);
      FeedMaxima(m, entries);
      DueOrDuplicate(m, entries);
    }
  }

  /** The data of one more entry is fed exactly if there is any and it is not an old request: it has no client, or
      its number exceeds every number under which its client sent data before. */
  lemma FedExactly(entries: seq<LogEntry>, e: LogEntry)
    ensures var fed, more := Replay(NewMachine, entries).fed, Replay(NewMachine, entries + [e]).fed;
      more == if (e.data != [] &&
                  (e.clientId == [] ||
                   forall j | 0 <= j < |entries| && entries[j].clientId == e.clientId && entries[j].data != [] ::
                     entries[j].sequenceNumber < e.sequenceNumber))
              then fed + [e.data] else fed
  {
    var all, n := entries + [e], |entries|;
    assert all[..n] == entries;
    ReplayOne(NewMachine, entries, e);
    ReplayExactlyOnce(entries);
    DueOrDuplicate(Replay(NewMachine, entries), all);
    assert forall j | 0 <= j < n :: all[j] == entries[j];
    assert forall j | 0 <= j < n && FromSession(all, j, e.clientId) :: entries[j].data != [];
    assert forall j | 0 <= j < n && entries[j].clientId == e.clientId && entries[j].data != [] && e.clientId != [] ::
        FromSession(all, j, e.clientId);
  }

  /** Of two due entries of one client the later has the greater number: no request is applied twice,
      and none after a later one of its client. */
  lemma DueIncreases(entries: seq<LogEntry>, i: nat, j: nat)
    requires i < j < |entries| && Due(entries, i) && Due(entries, j)
    requires entries[i].clientId == entries[j].clientId != []
    ensures entries[i].sequenceNumber < entries[j].sequenceNumber
  {
    assert FromSession(entries, i, entries[j].clientId);
  }

  // ----- start-up from a snapshot, which carries no session table -----

  lemma DueOfPrefix(entries: seq<LogEntry>, n: nat, i: nat)
    requires i < n <= |entries|
    ensures Due(entries[..n], i) <==> Due(entries, i)
  {
    assert forall j, c | 0 <= j < n :: FromSession(entries[..n], j, c) <==> FromSession(entries, j, c);
  }

  /** A request that is new among the entries replayed, but was already fed before the snapshot was taken. */
  ghost predicate FedBefore(t: Table, more: seq<LogEntry>, i: nat)
    requires i < |more|
  {
    Due(more, i) && IsDuplicate(t, more[i].clientId, more[i].sequenceNumber)
  }

  ghost predicate NoneFedBefore(t: Table, more: seq<LogEntry>) {
    forall i | 0 <= i < |more| :: !FedBefore(t, more, i)
  }

  lemma NoneFedNext(t: Table, more: seq<LogEntry>)
    requires more != []
    ensures NoneFedBefore(t, more) <==>
      NoneFedBefore(t, more[..|more| - 1]) && !FedBefore(t, more, |more| - 1)
  {
    var n := |more| - 1;
    forall i | 0 <= i < n
      ensures FedBefore(t, more[..n], i) <==> FedBefore(t, more, i)
    {
      DueOfPrefix(more, n, i);
    }
  }

  /** With the table kept, a request is a duplicate if it is one of the kept table or of the one built since. */
  ghost predicate Merged(kept: Table, t: Table, since: Table) {
    forall client, number ::
      IsDuplicate(kept, client, number) <==> IsDuplicate(t, client, number) || IsDuplicate(since, client, number)
  }

  lemma MergedRecord(kept: Table, t: Table, since: Table, client: ClientId, number: nat, a: Answer, b: Answer)
    requires Merged(kept, t, since) && !IsDuplicate(since, client, number)
    ensures Merged(if IsDuplicate(t, client, number) then kept else Record(kept, client, number, a), t,
                   Record(since, client, number, b))
  {
    var kept' := if IsDuplicate(t, client, number) then kept else Record(kept, client, number, a);
    var since' := Record(since, client, number, b);
    forall c, k
      ensures IsDuplicate(kept', c, k) <==> IsDuplicate(t, c, k) || IsDuplicate(since', c, k)
    {
      assert IsDuplicate(kept, c, k) <==> IsDuplicate(t, c, k) || IsDuplicate(since, c, k);
      assert IsDuplicate(kept, c, number) <==> IsDuplicate(t, c, number) || IsDuplicate(since, c, number);
    }
  }

  /** One entry more, with the table lost and with the table kept. */
  lemma RestoredStep(lost: Machine, kept: Machine, t: Table, e: LogEntry)
    requires Merged(kept.sessions, t, lost.sessions)
    ensures var lost' := Feed(lost, e); var kept' := Feed(kept, e);
      var again := e.data != [] && !IsDuplicate(lost.sessions, e.clientId, e.sequenceNumber) &&
                   IsDuplicate(t, e.clientId, e.sequenceNumber);
      && Merged(kept'.sessions, t, lost'.sessions)
      && |lost'.fed| - |kept'.fed| == |lost.fed| - |kept.fed| + (if again then 1 else 0)
      && (lost.fed == kept.fed && !again ==> lost'.fed == kept'.fed)
  {
    assert IsDuplicate(kept.sessions, e.clientId, e.sequenceNumber) <==>
      IsDuplicate(t, e.clientId, e.sequenceNumber) || IsDuplicate(lost.sessions, e.clientId, e.sequenceNumber);
    if e.data != [] && e.clientId != [] && !IsDuplicate(lost.sessions, e.clientId, e.sequenceNumber) {
      MergedRecord(kept.sessions, t, lost.sessions, e.clientId, e.sequenceNumber, kept.fed + [e.data],
                   lost.fed + [e.data]);
    }
  }

  ghost predicate Restored(lost: Machine, kept: Machine, t: Table, more: seq<LogEntry>) {
    && HoldsMaxima(lost.sessions, more) && Merged(kept.sessions, t, lost.sessions)
    && |kept.fed| <= |lost.fed| && (|kept.fed| == |lost.fed| ==> kept.fed == lost.fed)
    && (|kept.fed| == |lost.fed| <==> NoneFedBefore(t, more))
  }

  lemma RestoredNext(lost: Machine, kept: Machine, t: Table, more: seq<LogEntry>)
    requires more != [] && Restored(lost, kept, t, more[..|more| - 1])
    ensures Restored(Feed(lost, more[|more| - 1]), Feed(kept, more[|more| - 1]), t, more)
  {
    FeedMaxima(lost, more);
    DueOrDuplicate(lost, more);
    RestoredStep(lost, kept, t, more[|more| - 1]);
    NoneFedNext(t, more);
  }

  lemma {:induction false} RestoredSoFar(fed: seq<Command>, t: Table, more: seq<LogEntry>)
    ensures Restored(Replay(Machine(fed, map[]), more), Replay(Machine(fed, t), more), t, more)
  {
    if more != [] {
      var front := more[..|more| - 1];
      RestoredSoFar(fed, t, front);
      RestoredNext(Replay(Machine(fed, map[]), front), Replay(Machine(fed, t), front), t, more);
    }
  }

  /** A snapshot carries the state machine and not the session table.  After start-up from it the state machine
      has been fed what it would have been fed with the table if and only if no request fed before the
      snapshot comes again among the entries replayed; otherwise it has been fed something twice. */
  lemma RestoredExactly(fed: seq<Command>, t: Table, more: seq<LogEntry>)
    ensures var lost := Replay(Machine(fed, map[]), more); var kept := Replay(Machine(fed, t), more);
      && (lost.fed == kept.fed <==> NoneFedBefore(t, more))
      && (lost.fed != kept.fed ==> |kept.fed| < |lost.fed|)
  {
    RestoredSoFar(fed, t, more);
  }

  /** One request, fed and covered by a snapshot, then retried: it is fed again after start-up. */
  lemma FedTwice(e: LogEntry)
    requires e.data != [] && e.clientId != []
    ensures Replay(NewMachine, [e, e]).fed == [e.data]
    ensures var image := Replay(NewMachine, [e]).fed;
      Replay(Machine(image, map[]), [e]).fed == [e.data, e.data]
  {
    ReplayOne(NewMachine, [], e);
    ReplayOne(NewMachine, [e], e);
    assert [] + [e] == [e] && [e] + [e] == [e, e];
    ReplayOne(Machine([e.data], map[]), [], e);
  }
}
