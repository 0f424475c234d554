/** Whether a caller's answer is the answer to what it asked.  The log holds the encoding of its entry, and what is
    applied is what that reads as. */
module OwnAnswers {
  import opened Types
  import opened Sessions
  import opened Answers
  import opened Bytes
  import opened LogEntryCodec

  lemma FirstAnswer(e: LogEntry)
    ensures AnswerTo(NewMachine, e) == if e.data == [] then None else Some([e.data])
  {
    assert NewMachine.fed + [e.data] == [e.data];
  }

  /** The answer to what was stored is the answer to the caller's own entry, whatever the state machine has been
      fed before, exactly when the entry is clear: the guard that would have to be checked before writing it. */
  lemma OwnAnswer(e: LogEntry)
    requires Fits(e)
    ensures (forall m: Machine :: AnswerTo(m, Stored(e)) == AnswerTo(m, e)) <==> Clear(e)
  {
    DecodeEncode(e);
    if !Clear(e) {
      StoredData(e);
      FirstAnswer(e);
      FirstAnswer(Stored(e));
      assert AnswerTo(NewMachine, Stored(e)) != AnswerTo(NewMachine, e);
    }
  }

  /** Data sent without a session that reads as a client header is not fed.  If nothing follows the header the
      caller gets no answer; if that client has sent this number or a later one, the caller gets the client's
      last answer; otherwise what follows is fed in the client's name. */
  lemma StrayHeader(m: Machine, term: nat, client: ClientId, number: nat, rest: seq<byte>)
    requires term < Range(W8) && number < Range(W8) && 1 <= |client| <= MAX_CLIENT_ID
    ensures var e := LogEntry(term, [], 0, Header(client, number) + rest);
      && AnswerTo(m, e) == Some(m.fed + [e.data])
      && AnswerTo(m, Stored(e)) ==
         (if rest == [] then None
          else if IsDuplicate(m.sessions, client, number) then Some(m.sessions[client].result)
          else Some(m.fed + [rest]))
      && (rest == [] || IsDuplicate(m.sessions, client, number) ==> Feed(m, Stored(e)) == m)
  {
    StoredHeader(term, client, number, rest);
  }

  /** Thirteen bytes posted without a session: the length 1, the id x, and the number 7. */
  const stray := LogEntry(3, [], 0, [1, 0, 0, 0, 120, 7, 0, 0, 0, 0, 0, 0, 0])

  lemma {:induction false} PutZero(k: nat)
    ensures Put(0, k) == seq(k, _ => 0)
  {
    if k > 0 {
      PutZero(k - 1);
      assert Put(0, k) == [0] + Put(0, k - 1);
    }
  }

  lemma StrayBytes()
    ensures stray.data == Header([120], 7)
  {
    Ranges();
    PutZero(3);
    PutZero(7);
    assert Length32([120]) == 1;
    assert Put(1, 4) == [1] + Put(0, 3) && Put(7, 8) == [7] + Put(0, 7);
  }

  /** They should be fed and answered; they are neither. */
  lemma StrayUnanswered(m: Machine)
    ensures AnswerTo(m, stray) == Some(m.fed + [stray.data]) && Stored(stray) == LogEntry(3, [120], 7, [])
    ensures AnswerTo(m, Stored(stray)) == None && Feed(m, Stored(stray)) == m
  {
    Ranges();
    StrayBytes();
    assert Header([120], 7) + [] == Header([120], 7);
    StoredHeader(3, [120], 7, []);
    StrayHeader(m, 3, [120], 7, []);
  }

  /** A client whose id is too long has no session in the log: its request, retried, is fed twice. */
  lemma LongIdTwice(e: LogEntry)
    requires Fits(e) && MAX_CLIENT_ID < |e.clientId| < Range(W4) && e.data != []
    ensures Replay(NewMachine, [e, e]).fed == [e.data]
    ensures Replay(NewMachine, [Stored(e), Stored(e)]).fed == [Stored(e).data, Stored(e).data]
  {
    StoredLongId(e);
    ReplayTwice(e);
    ReplayTwice(Stored(e));
  }

  lemma ReplayTwice(e: LogEntry)
    ensures Replay(NewMachine, [e, e]) == Feed(Feed(NewMachine, e), e)
  {
    ReplayOne(NewMachine, [], e);
    ReplayOne(NewMachine, [e], e);
    assert [] + [e] == [e] && [e] + [e] == [e, e];
  }
}
