/** A leader role and the callers waiting for their proposals.  Every caller has a channel that is
    given one answer and closed, or closed without one; the runtime stops the node if a channel is
    closed twice. */
module Proposals {
  import opened Types
  import opened Sessions
  import opened Answers
  import opened LogEntryCodec

  datatype Fate = Waiting | Answered(answer: Option<Answer>) | Closed | Withdrawn

  /** What a caller asked for: its entry, where in the log it went, and what it reads as there. */
  datatype Asked = Asked(index: nat, entry: LogEntry, stored: LogEntry)

  ghost predicate StoredOk(a: Asked) {
    a.stored == Stored(a.entry)
  }

  ghost predicate AskedOk(asked: seq<Asked>) {
    forall c {:trigger StoredOk(asked[c])} | 0 <= c < |asked| :: StoredOk(asked[c])
  }

  lemma AskedMore(asked: seq<Asked>, index: nat, entry: LogEntry)
    requires AskedOk(asked)
    ensures AskedOk(asked + [Asked(index, entry, Stored(entry))])
  {
    var more := asked + [Asked(index, entry, Stored(entry))];
    forall c | 0 <= c < |more|
      ensures StoredOk(more[c])
    {
      assert c < |asked| ==> StoredOk(asked[c]);
    }
  }

  datatype Reply = Cached(result: Answer) | Refused | Registered(channel: nat)

  /** The answer of the state machine to what was stored of the caller's entry, once that was committed. */
  ghost predicate Told(a: Asked, answer: Option<Answer>, applied: seq<LogEntry>, commitIndex: nat) {
    && 1 <= a.index <= |applied| && a.index <= commitIndex
    && applied[a.index - 1] == a.stored && answer == AnswerAt(applied, a.index - 1)
  }

  /** That is the answer to the caller's own entry if the entry is clear, and for no other entry can this be
      relied upon (`OwnAnswers.OwnAnswer`). */
  lemma ToldOwn(a: Asked, answer: Option<Answer>, applied: seq<LogEntry>, commitIndex: nat)
    requires Told(a, answer, applied, commitIndex) && StoredOk(a) && Fits(a.entry) && Clear(a.entry)
    ensures applied[a.index - 1] == a.entry
    ensures answer == AnswerTo(Replay(NewMachine, applied[..a.index - 1]), a.entry)
  {
    DecodeEncode(a.entry);
  }

  ghost predicate AllTold(channels: seq<Fate>, asked: seq<Asked>, applied: seq<LogEntry>, commitIndex: nat) {
    |channels| == |asked| && forall c | 0 <= c < |channels| && channels[c].Answered? ::
      Told(asked[c], channels[c].answer, applied, commitIndex)
  }

  /** Exactly those waiting at one index have been settled. */
  ghost predicate SettledAt(now: seq<Fate>, next: seq<Fate>, asked: seq<Asked>, index: nat, fate: Fate) {
    |next| == |now| == |asked| && forall c | 0 <= c < |now| ::
      next[c] == if now[c].Waiting? && asked[c].index == index then fate else now[c]
  }

  /** Exactly those waiting after `from` and up to `upTo` have been given their answers. */
  ghost predicate AnsweredThrough(before: seq<Fate>, now: seq<Fate>, asked: seq<Asked>, applied: seq<LogEntry>,
                                  from: nat, upTo: nat) {
    |before| == |now| == |asked| && upTo <= |applied| && forall c | 0 <= c < |now| ::
      now[c] == if before[c].Waiting? && from < asked[c].index <= upTo
                then Answered(AnswerAt(applied, asked[c].index - 1)) else before[c]
  }

  lemma AnsweredNext(before: seq<Fate>, now: seq<Fate>, next: seq<Fate>, asked: seq<Asked>, applied: seq<LogEntry>,
                     e: LogEntry, from: nat)
    requires from <= |applied| && AnsweredThrough(before, now, asked, applied, from, |applied|)
    requires SettledAt(now, next, asked, |applied| + 1, Answered(AnswerAt(applied + [e], |applied|)))
    ensures AnsweredThrough(before, next, asked, applied + [e], from, |applied| + 1)
  {
    forall c | 0 <= c < |next|
      ensures next[c] == if before[c].Waiting? && from < asked[c].index <= |applied| + 1
                         then Answered(AnswerAt(applied + [e], asked[c].index - 1)) else before[c]
    {
      TellsStill(applied, e, asked[c].index);
    }
  }

  lemma ToldNext(now: seq<Fate>, next: seq<Fate>, asked: seq<Asked>, applied: seq<LogEntry>, e: LogEntry,
                 commitIndex: nat)
    requires AllTold(now, asked, applied, commitIndex) && |applied| < commitIndex
    requires SettledAt(now, next, asked, |applied| + 1, Answered(AnswerAt(applied + [e], |applied|)))
    requires forall c | 0 <= c < |now| && now[c].Waiting? && asked[c].index == |applied| + 1 ::
      asked[c].stored == e
    ensures AllTold(next, asked, applied + [e], commitIndex)
  {
    forall c | 0 <= c < |next| && next[c].Answered?
      ensures Told(asked[c], next[c].answer, applied + [e], commitIndex)
    {
      TellsStill(applied, e, asked[c].index);
    }
  }

  predicate Distinct(s: seq<nat>) {
    forall i, j | 0 <= i < j < |s| :: s[i] != s[j]
  }

  /** The list without its element k: the last element takes its place. */
  function SwapOut(s: seq<nat>, k: nat): seq<nat>
    requires k < |s|
  {
    s[k := s[|s| - 1]][..|s| - 1]
  }

  lemma SwapOutRemoves(s: seq<nat>, k: nat)
    requires k < |s| && Distinct(s)
    ensures Distinct(SwapOut(s, k)) && forall x :: x in SwapOut(s, k) <==> x in s && x != s[k]
  {
    var last := |s| - 1;
    forall x | x in s && x != s[k]
      ensures x in SwapOut(s, k)
    {
      var i :| 0 <= i < |s| && s[i] == x;
      assert SwapOut(s, k)[if i == last then k else i] == x;
    }
  }

  class Leader {
    const term: nat
    const epoch: nat
    var entered: nat                      // the node's role epoch
    var log: seq<LogEntry>                // the node's log, as it is read
    var pending: map<nat, seq<nat>>       // channels by log index
    var channels: seq<Fate>
    var commitIndex: nat
    var lastApplied: nat
    var fed: seq<Command>
    var sessions: Table

    ghost var asked: seq<Asked>           // by channel
    ghost var applied: seq<LogEntry>

    ghost predicate Waits(channel: nat, index: nat)
      reads this`channels, this`asked
    {
      channel < |channels| == |asked| && channels[channel].Waiting? && asked[channel].index == index
    }

    predicate Listed(channel: nat, index: nat)
      reads this`pending
    {
      index in pending && channel in pending[index]
    }

    /** The lists hold exactly the channels still waiting, each once and under its own index. */
    ghost predicate PendingOk()
      reads this`pending, this`channels, this`asked
    {
      && |channels| == |asked|
      && (forall index | index in pending :: Distinct(pending[index]))
      && (forall channel: nat, index: nat :: Listed(channel, index) <==> Waits(channel, index))
    }

    /** What was stored of every waiting caller's entry is where it was put, as long as this role lasts. */
    ghost predicate EntriesOk()
      reads this`entered, this`log, this`pending, this`channels, this`asked
    {
      && (epoch == entered || pending.Keys == {})
      && (forall channel: nat, index: nat :: Waits(channel, index) ==>
            1 <= index <= |log| && log[index - 1] == asked[channel].stored)
    }

    ghost predicate MachineOk()
      reads this
    {
      |applied| == lastApplied && Machine(fed, sessions) == Replay(NewMachine, applied)
    }

    ghost predicate Valid()
      reads this
    {
      PendingOk() && EntriesOk() && MachineOk() && AllTold(channels, asked, applied, commitIndex) && AskedOk(asked)
    }

    constructor (term: nat, epoch: nat, log: seq<LogEntry>, commitIndex: nat, applied: seq<LogEntry>,
                 fed: seq<Command>, sessions: Table)
      requires Machine(fed, sessions) == Replay(NewMachine, applied)
      ensures Valid() && channels == [] && this.log == log && this.epoch == epoch == entered
      ensures this.commitIndex == commitIndex && this.applied == applied
    {
      this.term, this.epoch, this.log, entered := term, epoch, log, epoch;
      pending, channels, asked := map[], [], [];
      this.commitIndex, lastApplied, this.applied := commitIndex, |applied|, applied;
      this.fed, this.sessions := fed, sessions;
    }

    /** A new channel waits for the entry at `index`. */
    method Register(index: nat, ghost entry: LogEntry, ghost stored: LogEntry) returns (channel: nat)
      requires PendingOk()
      modifies this`pending, this`channels, this`asked
      ensures PendingOk() && channel == |old(channels)|
      ensures channels == old(channels) + [Waiting] && asked == old(asked) + [Asked(index, entry, stored)]
    {
      channel := |channels|;
      var others := if index in pending then pending[index] else [];
      assert index in pending ==> Distinct(pending[index]);
      channels, asked := channels + [Waiting], asked + [Asked(index, entry, stored)];
      forall c | c in others
        ensures c != channel
      {
        assert old(Listed(c, index)) <==> old(Waits(c, index));
      }
      assert forall k | 0 <= k < |others| :: others[k] in others;
      assert Distinct(others + [channel]);
      pending := pending[index := others + [channel]];
      forall c: nat, i: nat
        ensures Listed(c, i) <==> Waits(c, i)
      {
        assert old(Listed(c, i)) <==> old(Waits(c, i));
        assert Waits(c, i) <==> old(Waits(c, i)) || (c == channel && i == index);
      }
    }

    /** A proposal: a duplicate already applied is answered at once; otherwise the caller, if it still
        means this role, waits for a new entry of its own. */
    method HandlePropose(data: seq<byte>, client: ClientId, number: nat, callEpoch: nat, leaseHolds: bool)
      returns (reply: Reply)
      requires Valid() && callEpoch == epoch
      modifies this
      ensures Valid() && lastApplied == old(lastApplied) && entered == old(entered) && commitIndex == old(commitIndex)
      ensures reply.Cached? <==> IsDuplicate(sessions, client, number)
      ensures reply.Cached? ==> reply.result == sessions[client].result
      ensures reply.Registered? <==> !reply.Cached? && entered == epoch && leaseHolds
      ensures reply.Registered? ==> reply.channel == |old(channels)| && channels == old(channels) + [Waiting]
      ensures reply.Registered? ==>
        var e := LogEntry(term, client, number, data);
        log == old(log) + [Stored(e)] && asked == old(asked) + [Asked(|log|, e, Stored(e))]
      ensures !reply.Registered? ==> channels == old(channels) && log == old(log) && asked == old(asked)
    {
      if IsDuplicate(sessions, client, number) {
        return Cached(sessions[client].result);
      }
      if entered != callEpoch || !leaseHolds {
        return Refused;
      }
      var e := LogEntry(term, client, number, data);
      AskedMore(asked, |log| + 1, e);
      var channel := Enlist(Stored(e), Asked(|log| + 1, e, Stored(e)));
      return Registered(channel);
    }

    /** The entry is written, and its caller waits for it. */
    method Enlist(stored: LogEntry, ghost a: Asked) returns (channel: nat)
      requires Valid() && entered == epoch
      requires a.index == |log| + 1 && a.stored == stored && AskedOk(asked + [a])
      modifies this`log, this`pending, this`channels, this`asked
      ensures Valid() && channel == |old(channels)| && channels == old(channels) + [Waiting]
      ensures log == old(log) + [stored] && asked == old(asked) + [a]
    {
      log := log + [stored];
      channel := Register(|log|, a.entry, stored);
      assert forall c: nat, i: nat :: Waits(c, i) ==> old(Waits(c, i)) || (c == channel && i == |log|);
    }

    /** Each channel is sent to or closed once; it must not have been before. */
    method Settle(waiters: seq<nat>, fate: Fate)
      requires Distinct(waiters) && !fate.Waiting?
      requires forall c | c in waiters :: c < |channels| && channels[c].Waiting?
      modifies this`channels
      ensures |channels| == |old(channels)|
      ensures forall c | 0 <= c < |channels| :: channels[c] == if c in waiters then fate else old(channels[c])
    {
      var i := 0;
      while i < |waiters|
        invariant i <= |waiters| && |channels| == |old(channels)|
        invariant forall c | 0 <= c < |channels| :: channels[c] == if c in waiters[..i] then fate else old(channels[c])
      {
        assert waiters[i] in waiters && waiters[i] !in waiters[..i];
        SettleOne(waiters[i], fate);
        i := i + 1;
      }
    }

    method SettleOne(channel: nat, fate: Fate)
      requires channel < |channels| && channels[channel].Waiting?
      modifies this`channels
      ensures channels == old(channels)[channel := fate]
    {
      channels := channels[channel := fate];
    }

    /** Take the waiters of one index out of the lists and settle them. */
    method SettleIndex(index: nat, fate: Fate)
      requires PendingOk() && !fate.Waiting?
      modifies this`pending, this`channels
      ensures PendingOk() && pending.Keys == old(pending.Keys) - {index} && (old(EntriesOk()) ==> EntriesOk())
      ensures SettledAt(old(channels), channels, asked, index, fate)
    {
      var waiters := if index in pending then pending[index] else [];
      assert forall c: nat :: c in waiters <==> Listed(c, index) && Waits(c, index);
      pending := pending - {index};
      Settle(waiters, fate);
      forall c: nat, i: nat
        ensures Listed(c, i) <==> Waits(c, i)
      {
        assert old(Listed(c, i)) <==> old(Waits(c, i));
      }
      assert forall c: nat, i: nat :: Waits(c, i) ==> old(Waits(c, i));
    }

    method Feed(e: LogEntry) returns (result: Option<Answer>)
      modifies this`fed, this`sessions
      ensures var m := Machine(old(fed), old(sessions));
        Machine(fed, sessions) == Sessions.Feed(m, e) && result == AnswerTo(m, e)
    {
      if e.data == [] {
        return None;
      }
      if e.clientId != [] {
        if IsDuplicate(sessions, e.clientId, e.sequenceNumber) {
          return Some(sessions[e.clientId].result);
        }
        fed := fed + [e.data];
        sessions := Record(sessions, e.clientId, e.sequenceNumber, fed);
      } else {
        fed := fed + [e.data];
      }
      return Some(fed);
    }

    /** The node's commit index is capped by its last index and never falls. */
    method SetCommitIndex(index: nat)
      requires Valid()
      modifies this`commitIndex
      ensures Valid() && commitIndex == if log == [] then old(commitIndex) else Max(old(commitIndex), Min(index, |log|))
    {
      if log != [] && Min(index, |log|) > commitIndex {
        commitIndex := Min(index, |log|);
      }
    }

    /** The apply loop: every committed entry, in order, until one cannot be read. */
    method ApplyCommitted()
      requires Valid()
      modifies this`pending, this`channels, this`lastApplied, this`fed, this`sessions, this`applied
      ensures Valid() && lastApplied == Max(old(lastApplied), Min(commitIndex, |log|))
      ensures old(applied) <= applied
      ensures AnsweredThrough(old(channels), channels, asked, applied, old(lastApplied), lastApplied)
    {
      while lastApplied < commitIndex && lastApplied < |log|
        invariant Valid() && old(lastApplied) <= lastApplied && old(applied) <= applied
        invariant lastApplied <= Min(commitIndex, |log|) || lastApplied == old(lastApplied)
        invariant AnsweredThrough(old(channels), channels, asked, applied, old(lastApplied), lastApplied)
      {
        ApplyOne(old(channels), old(lastApplied));
      }
    }

    method ApplyOne(ghost before: seq<Fate>, ghost from: nat)
      requires Valid() && lastApplied < commitIndex && lastApplied < |log| && from <= lastApplied
      requires AnsweredThrough(before, channels, asked, applied, from, lastApplied)
      modifies this`pending, this`channels, this`lastApplied, this`fed, this`sessions, this`applied
      ensures Valid() && applied == old(applied) + [log[old(lastApplied)]] && lastApplied == old(lastApplied) + 1
      ensures AnsweredThrough(before, channels, asked, applied, from, lastApplied)
    {
      ghost var now, done := channels, applied;
      ApplyNext();
      AnsweredNext(before, now, channels, asked, done, log[lastApplied - 1], from);
    }

    /** One turn of the apply loop: the callers waiting at this index, and no others, get its answer. */
    method ApplyNext()
      requires Valid() && lastApplied < commitIndex && lastApplied < |log|
      modifies this`pending, this`channels, this`lastApplied, this`fed, this`sessions, this`applied
      ensures Valid() && applied == old(applied) + [log[old(lastApplied)]] && lastApplied == old(lastApplied) + 1
      ensures SettledAt(old(channels), channels, asked, lastApplied, Answered(AnswerAt(applied, old(lastApplied))))
    {
      var e := log[lastApplied];
      var result := FeedNext(e);
      AnswerNext(e, result);
    }

    method AnswerNext(e: LogEntry, result: Option<Answer>)
      requires PendingOk() && EntriesOk() && AllTold(channels, asked, applied, commitIndex)
      requires |applied| == lastApplied < commitIndex && lastApplied < |log| && e == log[lastApplied]
      requires result == AnswerAt(applied + [e], |applied|)
      modifies this`pending, this`channels, this`lastApplied, this`applied
      ensures PendingOk() && EntriesOk() && AllTold(channels, asked, applied, commitIndex)
      ensures applied == old(applied) + [e] && lastApplied == old(lastApplied) + 1
      ensures SettledAt(old(channels), channels, asked, lastApplied, Answered(result))
    {
      ghost var now, done := channels, applied;
      var index := lastApplied + 1;
      assert forall c | 0 <= c < |channels| && channels[c].Waiting? && asked[c].index == index :: Waits(c, index);
      SettleIndex(index, Answered(result));
      lastApplied, applied := index, applied + [e];
      ToldNext(now, channels, asked, done, e, commitIndex);
    }

    method FeedNext(e: LogEntry) returns (result: Option<Answer>)
      requires MachineOk()
      modifies this`fed, this`sessions
      ensures Machine(fed, sessions) == Replay(NewMachine, applied + [e])
      ensures result == AnswerAt(applied + [e], |applied|)
    {
      ReplayOne(NewMachine, applied, e);
      assert (applied + [e])[..|applied|] == applied;
      result := Feed(e);
    }

    /** Leaving the role closes every channel still waiting. */
    method OnExit()
      requires PendingOk()
      modifies this`pending, this`channels
      ensures PendingOk() && pending == map[] && |channels| == |old(channels)|
      ensures forall c | 0 <= c < |channels| ::
        channels[c] == if old(channels[c]).Waiting? then Closed else old(channels[c])
    {
      while pending != map[]
        invariant PendingOk() && |channels| == |old(channels)|
        invariant forall c | 0 <= c < |channels| ::
          channels[c] == old(channels[c]) || (old(channels[c]).Waiting? && channels[c].Closed?)
        decreases pending.Keys
      {
        var index :| index in pending;
        SettleIndex(index, Closed);
      }
      assert forall c: nat | c < |channels| && channels[c].Waiting? ::
        Waits(c, asked[c].index) && Listed(c, asked[c].index);
    }

    /** The caller gives up: its channel, if still waiting, is taken out of the list, where the last
        one takes its place.  If it has been answered or closed already, nothing happens. */
    method Withdraw(channel: nat, index: nat)
      requires Valid() && channel < |channels| && asked[channel].index == index
      modifies this`pending, this`channels
      ensures Valid()
      ensures channels == if old(channels[channel]).Waiting? then old(channels)[channel := Withdrawn] else old(channels)
    {
      var ws := if index in pending then pending[index] else [];
      assert forall c: nat :: c in ws <==> Listed(c, index) && Waits(c, index);
      var i := 0;
      while i < |ws| && ws[i] != channel
        invariant i <= |ws| && channel !in ws[..i]
      {
        i := i + 1;
      }
      assert channel in ws <==> Waits(channel, index);
      if i < |ws| {
        SwapOutRemoves(ws, i);
        TakeOut(channel, index, SwapOut(ws, i));
      }
    }

    method TakeOut(channel: nat, index: nat, rest: seq<nat>)
      requires Valid() && Waits(channel, index)
      requires Distinct(rest) && forall c: nat :: c in rest <==> Listed(c, index) && c != channel
      modifies this`pending, this`channels
      ensures Valid() && channels == old(channels)[channel := Withdrawn]
    {
      pending := if rest != [] then pending[index := rest] else pending - {index};
      SettleOne(channel, Withdrawn);
      forall c: nat, i: nat
        ensures Listed(c, i) <==> Waits(c, i)
      {
        assert old(Listed(c, i)) <==> old(Waits(c, i));
      }
      assert forall c: nat, i: nat :: Waits(c, i) ==> old(Waits(c, i));
    }

    /** The node leaves the role. */
    method StepDown()
      requires Valid() && entered == epoch
      modifies this`pending, this`channels, this`entered
      ensures Valid() && entered == epoch + 1 && |channels| == |old(channels)|
      ensures forall c | 0 <= c < |channels| ::
        channels[c] == if old(channels[c]).Waiting? then Closed else old(channels[c])
    {
      OnExit();
      entered := entered + 1;
      assert forall c: nat, i: nat :: !Waits(c, i) by {
        assert forall c: nat, i: nat :: Listed(c, i) <==> Waits(c, i);
      }
    }

    /** Later roles may do anything to the log; the applier of this one may still run. */
    method LaterRole(after: seq<LogEntry>, epochNow: nat, commitNow: nat)
      requires Valid() && epoch < entered <= epochNow && commitIndex <= commitNow
      modifies this`log, this`entered, this`commitIndex
      ensures Valid() && log == after && entered == epochNow && commitIndex == commitNow
    {
      log, entered, commitIndex := after, epochNow, commitNow;
      assert forall c: nat, i: nat :: !Waits(c, i) by {
        assert forall c: nat, i: nat :: Listed(c, i) <==> Waits(c, i);
      }
    }
  }

  lemma TellsStill(applied: seq<LogEntry>, e: LogEntry, index: nat)
    ensures 1 <= index <= |applied| ==> AnswerAt(applied + [e], index - 1) == AnswerAt(applied, index - 1)
  {
    assert 1 <= index <= |applied| ==> (applied + [e])[..index - 1] == applied[..index - 1];
  }
}
