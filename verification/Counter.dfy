/** What the counter stands for: each hash is counted at most once in any 1440 minutes of virtual time.
    Virtual time moves, at each accepted call, by the forward distance round the 1440-minute day. */
module Windows {
  type Hash = nat

  const SLOTS: int := 1440
  const MAX64: int := 0x7FFF_FFFF_FFFF_FFFF

  type int64 = x: int | -MAX64 - 1 <= x <= MAX64

  datatype Call = Call(hash: Hash, n: int64, minute: nat)

  /** Virtual time, when each hash was last counted, and the sum. */
  datatype Window = Window(now: nat, last: map<Hash, nat>, value: int64)

  const NewWindow := Window(0, map[], 0)

  predicate Past(last: map<Hash, nat>, now: nat) {
    forall h | h in last :: last[h] <= now
  }

  predicate Recent(last: map<Hash, nat>, now: nat, h: Hash) {
    h in last && now - last[h] < SLOTS
  }

  function Live(last: map<Hash, nat>, now: nat): set<Hash> {
    set h | h in last && Recent(last, now, h)
  }

  /** The sum of two int64 values, which wraps round. */
  function Plus(a: int64, b: int64): int64 {
    var v := a + b;
    if v > MAX64 then v - 2 * (MAX64 + 1) else if v < -MAX64 - 1 then v + 2 * (MAX64 + 1) else v
  }

  predicate Rejects(w: Window, c: Call) {
    Plus(w.value, c.n) < 0
  }

  function Ahead(now: nat, minute: nat): nat {
    now + (minute - now) % SLOTS
  }

  predicate Counts(w: Window, c: Call) {
    !Rejects(w, c) && !Recent(w.last, Ahead(w.now, c.minute), c.hash)
  }

  function Count(w: Window, c: Call): Window {
    if Rejects(w, c) then w
    else
      var now := Ahead(w.now, c.minute);
      if Counts(w, c) then Window(now, w.last[c.hash := now], Plus(w.value, c.n)) else w.(now := now)
  }

  function Run(calls: seq<Call>): Window {
    if calls == [] then NewWindow else Count(Run(calls[..|calls| - 1]), calls[|calls| - 1])
  }

  lemma RunOne(calls: seq<Call>, c: Call)
    ensures Run(calls + [c]) == Count(Run(calls), c)
  {
    assert (calls + [c])[..|calls|] == calls;
  }

  // ----- what holds of every run -----

  predicate Accepted(calls: seq<Call>, i: nat)
    requires i < |calls|
  {
    !Rejects(Run(calls[..i]), calls[i])
  }

  predicate Counted(calls: seq<Call>, i: nat)
    requires i < |calls|
  {
    Counts(Run(calls[..i]), calls[i])
  }

  /** The virtual time of call i. */
  function At(calls: seq<Call>, i: nat): nat
    requires i < |calls|
  {
    Run(calls[..i + 1]).now
  }

  function Sum(calls: seq<Call>, k: nat): int
    requires k <= |calls|
  {
    if k == 0 then 0 else Sum(calls, k - 1) + if Counted(calls, k - 1) then calls[k - 1].n else 0
  }

  lemma {:induction false} SumPrefix(calls: seq<Call>, n: nat, k: nat)
    requires k <= n <= |calls|
    ensures Sum(calls[..n], k) == Sum(calls, k)
  {
    if k > 0 {
      SumPrefix(calls, n, k - 1);
      assert calls[..n][..k - 1] == calls[..k - 1];
    }
  }

  /** The value is the sum of what was counted, never wrapped round and never negative. */
  lemma {:induction false} ValueIsSum(calls: seq<Call>)
    ensures Run(calls).value == Sum(calls, |calls|) && Run(calls).value >= 0
  {
    if calls != [] {
      var n := |calls| - 1;
      ValueIsSum(calls[..n]);
      SumPrefix(calls, n, n);
    }
  }

  lemma {:induction false} RunPast(calls: seq<Call>)
    ensures Past(Run(calls).last, Run(calls).now)
  {
    if calls != [] {
      RunPast(calls[..|calls| - 1]);
    }
  }

  lemma CountedPrefix(calls: seq<Call>, n: nat, i: nat)
    requires i < n <= |calls|
    ensures Counted(calls[..n], i) == Counted(calls, i) && At(calls[..n], i) == At(calls, i)
  {
    assert calls[..n][..i] == calls[..i] && calls[..n][..i + 1] == calls[..i + 1];
  }

  lemma {:induction false} LastIsLatest(calls: seq<Call>, i: nat)
    requires i < |calls| && Counted(calls, i)
    ensures var w := Run(calls); calls[i].hash in w.last && At(calls, i) <= w.last[calls[i].hash]
  {
    var n := |calls| - 1;
    RunPast(calls[..n]);
    assert calls[..n + 1] == calls;
    if i < n {
      CountedPrefix(calls, n, i);
      LastIsLatest(calls[..n], i);
    }
  }

  lemma {:induction false} LastWasCounted(calls: seq<Call>, h: Hash)
    requires h in Run(calls).last
    ensures exists i ::
      0 <= i < |calls| && Counted(calls, i) && calls[i].hash == h && At(calls, i) == Run(calls).last[h]
  {
    var n := |calls| - 1;
    assert calls[..n + 1] == calls;
    if !(Counted(calls, n) && calls[n].hash == h) {
      LastWasCounted(calls[..n], h);
      var i :| 0 <= i < n && Counted(calls[..n], i) && calls[..n][i].hash == h &&
              At(calls[..n], i) == Run(calls[..n]).last[h];
      CountedPrefix(calls, n, i);
    }
  }

  /** A hash is live exactly if some call counted it less than 1440 virtual minutes ago. */
  lemma LiveExactly(calls: seq<Call>, h: Hash)
    ensures h in Live(Run(calls).last, Run(calls).now) <==>
      exists i :: 0 <= i < |calls| && Counted(calls, i) && calls[i].hash == h && Run(calls).now - At(calls, i) < SLOTS
  {
    if h in Live(Run(calls).last, Run(calls).now) {
      LastWasCounted(calls, h);
    }
    forall i | 0 <= i < |calls| && Counted(calls, i) && calls[i].hash == h
      ensures h in Run(calls).last && At(calls, i) <= Run(calls).last[h]
    {
      LastIsLatest(calls, i);
    }
  }

  /** Two counts of one hash are 1440 virtual minutes apart or more. */
  lemma CountedApart(calls: seq<Call>, i: nat, j: nat)
    requires i < j < |calls| && calls[i].hash == calls[j].hash && Counted(calls, i) && Counted(calls, j)
    ensures At(calls, j) - At(calls, i) >= SLOTS
  {
    assert calls[..j + 1][..j] == calls[..j];
    CountedPrefix(calls, j, i);
    LastIsLatest(calls[..j], i);
  }

  /** A call is accepted exactly if the sum of what was counted before and its own n lies between 0 and the
      greatest int64. */
  lemma AcceptedExactly(calls: seq<Call>, i: nat)
    requires i < |calls|
    ensures Accepted(calls, i) <==> 0 <= Sum(calls, i) + calls[i].n <= 0x7FFF_FFFF_FFFF_FFFF
  {
    ValueIsSum(calls[..i]);
    SumPrefix(calls, i, i);
  }

  /** A call is counted exactly if it is accepted and no call of the same hash was counted less than 1440 virtual
      minutes before it. */
  lemma CountedExactly(calls: seq<Call>, i: nat)
    requires i < |calls|
    ensures Counted(calls, i) <==>
      && Accepted(calls, i)
      && forall j | 0 <= j < i && Counted(calls, j) && calls[j].hash == calls[i].hash ::
           At(calls, i) - At(calls, j) >= 1440
  {
    var front := calls[..i];
    assert calls[..i + 1][..i] == front;
    forall j | 0 <= j < i
      ensures Counted(front, j) == Counted(calls, j) && At(front, j) == At(calls, j)
    {
      CountedPrefix(calls, i, j);
    }
    forall j | 0 <= j < i && Counted(front, j) && front[j].hash == calls[i].hash
      ensures calls[i].hash in Run(front).last && At(front, j) <= Run(front).last[calls[i].hash]
    {
      LastIsLatest(front, j);
    }
    if calls[i].hash in Run(front).last {
      LastWasCounted(front, calls[i].hash);
    }
  }

  /** A rejected call changes nothing, and time stands still. */
  lemma RejectedNothing(calls: seq<Call>, i: nat)
    requires i < |calls| && !Accepted(calls, i)
    ensures Run(calls[..i + 1]) == Run(calls[..i])
  {
    assert calls[..i + 1][..i] == calls[..i];
  }

  // ----- virtual time against real time -----

  /** The real minute of the latest accepted call, 0 before any. */
  function Latest(calls: seq<Call>, times: seq<nat>): nat
    requires |times| == |calls|
  {
    if calls == [] then 0
    else
      var n := |calls| - 1;
      if Accepted(calls, n) then times[n] else Latest(calls[..n], times[..n])
  }

  /** The whole days that passed between one accepted call and the next, and before the first. */
  function DaysMissed(calls: seq<Call>, times: seq<nat>): int
    requires |times| == |calls|
  {
    if calls == [] then 0
    else
      var n := |calls| - 1;
      DaysMissed(calls[..n], times[..n]) +
      if Accepted(calls, n) then (times[n] - Latest(calls[..n], times[..n])) / SLOTS else 0
  }

  predicate OfTheDay(calls: seq<Call>, times: seq<nat>)
    requires |times| == |calls|
  {
    forall i | 0 <= i < |calls| :: calls[i].minute % SLOTS == times[i] % SLOTS
  }

  /** Virtual time is real time less the whole days missed: the window is the true one as long as
      accepted calls come less than a day apart. */
  lemma {:induction false} VirtualTime(calls: seq<Call>, times: seq<nat>)
    requires |times| == |calls| && OfTheDay(calls, times)
    ensures Run(calls).now == Latest(calls, times) - SLOTS * DaysMissed(calls, times)
  {
    if calls != [] {
      var n := |calls| - 1;
      VirtualTime(calls[..n], times[..n]);
      SameDistance(calls[n].minute, Run(calls[..n]).now, times[n], Latest(calls[..n], times[..n]),
                   DaysMissed(calls[..n], times[..n]));
    }
  }

  lemma SameDistance(minute: int, now: int, time: int, latest: int, days: int)
    requires minute % SLOTS == time % SLOTS && now == latest - SLOTS * days
    ensures now + (minute - now) % SLOTS == time - SLOTS * (days + (time - latest) / SLOTS)
  {
    var q := minute / SLOTS - time / SLOTS + days;
    assert minute - now == (time - latest) + SLOTS * q;
    Shift(time - latest, q);
  }

  lemma Shift(x: int, q: int)
    ensures (x + SLOTS * q) % SLOTS == x % SLOTS
  {
    var a := x / SLOTS;
    assert x + SLOTS * q == SLOTS * (a + q) + x % SLOTS;
    assert 0 <= x % SLOTS < SLOTS;
    assert (x + SLOTS * q) / SLOTS == a + q;
  }
}

/** The counter as it is kept: a ring of 1440 slots, one set of hashes for each minute of the day, and
    beside it the set of all hashes present. */
module Counters {
  import opened Windows

  /** The hashes last counted in a minute of the window that falls on slot i. */
  function Slot(last: map<Hash, nat>, now: nat, i: nat): set<Hash> {
    set h | h in last && Recent(last, now, h) && last[h] % SLOTS == i
  }

  /** The slots and the set of all hashes show the window. */
  ghost predicate Shows(present: set<Hash>, slots: seq<set<Hash>>, last: map<Hash, nat>, now: nat) {
    |slots| == SLOTS && Past(last, now) && present == Live(last, now) &&
    forall i | 0 <= i < SLOTS :: slots[i] == Slot(last, now, i)
  }

  /** The slots are a partition of the hashes present. */
  lemma SlotsPartition(present: set<Hash>, slots: seq<set<Hash>>, last: map<Hash, nat>, now: nat)
    requires Shows(present, slots, last, now)
    ensures forall h :: h in present <==> exists i :: 0 <= i < |slots| && h in slots[i]
    ensures forall i, j | 0 <= i < j < |slots| :: slots[i] !! slots[j]
  {
    forall h | h in present
      ensures exists i :: 0 <= i < |slots| && h in slots[i]
    {
      assert h in slots[last[h] % SLOTS];
    }
  }

  lemma SameSlot(a: nat, b: nat)
    requires a < b <= a + SLOTS
    ensures a % SLOTS == b % SLOTS <==> b == a + SLOTS
  {
  }

  /** Emptying the slot of the coming minute is the same as letting one minute pass. */
  lemma ClearTicks(present: set<Hash>, slots: seq<set<Hash>>, last: map<Hash, nat>, now: nat, i: nat)
    requires Shows(present, slots, last, now) && i == (now + 1) % SLOTS
    ensures Shows(present - slots[i], slots[i := {}], last, now + 1)
  {
    forall h | h in last
      ensures Recent(last, now + 1, h) <==> Recent(last, now, h) && last[h] % SLOTS != i
    {
      if Recent(last, now, h) {
        SameSlot(last[h], now + 1);
      }
    }
  }

  lemma RecordShows(present: set<Hash>, slots: seq<set<Hash>>, last: map<Hash, nat>, now: nat, h: Hash)
    requires Shows(present, slots, last, now) && h !in present
    ensures var i := now % SLOTS; Shows(present + {h}, slots[i := slots[i] + {h}], last[h := now], now)
  {
    forall g | g != h
      ensures Recent(last[h := now], now, g) <==> Recent(last, now, g)
    {
    }
  }

  /** Going forward from now, the first minute that falls on slot `to` is the one aimed at. */
  lemma Reaches(now: nat, tick: nat, to: nat)
    requires to < SLOTS && to != now % SLOTS
    ensures now < Ahead(now, to) < now + SLOTS
    ensures now < tick <= Ahead(now, to) ==> (tick % SLOTS == to <==> tick == Ahead(now, to))
  {
  }

  lemma AheadOnSlot(now: nat, minute: nat)
    ensures Ahead(now, minute) == Ahead(now, minute % SLOTS)
    ensures Ahead(now, minute) % SLOTS == minute % SLOTS
    ensures minute % SLOTS == now % SLOTS ==> Ahead(now, minute) == now
  {
    Shift(minute % SLOTS - now, minute / SLOTS);
  }

  lemma NextSlot(tick: nat)
    ensures (tick % SLOTS + 1) % SLOTS == (tick + 1) % SLOTS
  {
  }

  class Counter {
    var minute: int
    var present: set<Hash>
    const slots: array<set<Hash>>
    var value: int64
    /** The calls made so far. */
    ghost var calls: seq<Call>

    ghost predicate Valid()
      reads this, slots
    {
      && slots.Length == SLOTS
      && Shows(present, slots[..], Run(calls).last, Run(calls).now)
      && (minute == -1 ==> Run(calls) == NewWindow)
      && (minute != -1 ==> minute == Run(calls).now % SLOTS)
      && value == Run(calls).value
    }

    constructor ()
      ensures Valid() && calls == [] && fresh(slots)
    {
      minute, present, value := -1, {}, 0;
      slots := new set<Hash>[SLOTS](_ => {});
      calls := [];
    }

    /** Empty one slot, hash by hash. */
    method ClearMinute(m: nat)
      requires slots.Length == SLOTS
      modifies this`present, slots
      ensures var i := m % SLOTS;
        present == old(present) - old(slots[i]) && slots[..] == old(slots[..])[i := {}]
    {
      var i := m % SLOTS;
      ghost var gone: set<Hash> := {};
      while slots[i] != {}
        invariant gone + slots[i] == old(slots[i]) && present == old(present) - gone
        invariant slots[..] == old(slots[..])[i := slots[i]]
        decreases slots[i]
      {
        var h :| h in slots[i];
        gone := gone + {h};
        present := present - {h};
        slots[i] := slots[i] - {h};
      }
    }

    /** Empty the slot of the coming minute. */
    method ClearNext(i: nat, ghost last: map<Hash, nat>, ghost now: nat)
      requires i == (now + 1) % SLOTS && Shows(present, slots[..], last, now)
      modifies this`present, slots
      ensures Shows(present, slots[..], last, now + 1)
    {
      ClearTicks(present, slots[..], last, now, i);
      ClearMinute(i);
    }

    /** Empty the slots after the current minute, up to the new one, going round the ring. */
    method ClearMinuteRange(to: nat, ghost last: map<Hash, nat>, ghost now: nat)
      requires to < SLOTS && to != minute
      requires Shows(present, slots[..], last, now)
      requires if minute == -1 then last == map[] else minute == now % SLOTS
      modifies this`present, slots
      ensures Shows(present, slots[..], last, Ahead(now, to))
    {
      if minute == -1 {
        return;
      }
      var i := (minute + 1) % SLOTS;
      ghost var tick, goal := now, Ahead(now, to);
      NextSlot(now);
      Reaches(now, now, to);
      while true
        invariant now <= tick < goal && i == (tick + 1) % SLOTS
        invariant Shows(present, slots[..], last, tick)
        decreases goal - tick
      {
        ClearNext(i, last, tick);
        tick := tick + 1;
        Reaches(now, tick, to);
        NextSlot(tick);
        if i == to {
          break;
        }
        i := (i + 1) % SLOTS;
      }
    }

    method MoveTo(slot: nat, ghost last: map<Hash, nat>, ghost now: nat)
      requires slot < SLOTS && Shows(present, slots[..], last, now)
      requires if minute == -1 then last == map[] else minute == now % SLOTS
      modifies this`present, this`minute, slots
      ensures minute == slot && Shows(present, slots[..], last, Ahead(now, slot))
    {
      AheadOnSlot(now, slot);
      if slot != minute {
        ClearMinuteRange(slot, last, now);
        minute := slot;
      }
    }

    method Insert(hash: Hash, slot: nat, ghost last: map<Hash, nat>, ghost now: nat)
      requires slot == now % SLOTS && Shows(present, slots[..], last, now) && hash !in present
      modifies this`present, slots
      ensures Shows(present, slots[..], last[hash := now], now)
    {
      RecordShows(present, slots[..], last, now, hash);
      present := present + {hash};
      slots[slot] := slots[slot] + {hash};
    }

    /** Count n under this hash at minute m, unless the sum would be negative or the hash is present. */
    method Increment(hash: Hash, n: int64, m: nat) returns (ok: bool)
      requires Valid()
      modifies this, slots
      ensures Valid() && calls == old(calls) + [Call(hash, n, m)]
      ensures ok <==> 0 <= old(value) + n <= 0x7FFF_FFFF_FFFF_FFFF
      ensures ok == Accepted(calls, |calls| - 1)
      ensures value == old(value) + (if Counted(calls, |calls| - 1) then n else 0)
      ensures ok ==> minute == m % SLOTS && hash in present
      ensures !ok ==> minute == old(minute) && present == old(present) && slots[..] == old(slots[..])
    {
      ghost var was := calls;
      ghost var w, c := Run(calls), Call(hash, n, m);
      RunOne(calls, c);
      AheadOnSlot(w.now, m);
      calls := calls + [c];
      assert calls[..|was|] == was;
      ValueIsSum(was);
      var v := Plus(value, n);
      if v < 0 {
        return false;
      }
      var slot := m % SLOTS;
      MoveTo(slot, w.last, w.now);
      if hash in present {
        return true;
      }
      Insert(hash, slot, w.last, Ahead(w.now, m));
      value := v;
      return true;
    }
  }
}
