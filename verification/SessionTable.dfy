/** The session table as an object, and its binary form. */
module SessionTables {
  import opened Types
  import opened Bytes
  import opened Sessions

  /** Some order in which the map's keys may be visited. */
  predicate Enumerates(order: seq<ClientId>, t: Table) {
    (forall c | c in order :: c in t) && (forall c | c in t :: c in order) &&
    (forall i, j | 0 <= i < j < |order| :: order[i] != order[j])
  }

  /** Lengths fit 32 bits and numbers 64. */
  predicate Fits(t: Table, order: seq<ClientId>) {
    |order| < Range(W4) && forall c | c in t :: |c| < Range(W4) && t[c].sequenceNumber < Range(W8)
  }

  function EncodeOne(client: ClientId, number: nat): seq<byte> {
    Put(|client|, W4) + client + Put(number, W8)
  }

  function EncodeAll(t: Table, order: seq<ClientId>): seq<byte>
    requires forall c | c in order :: c in t
  {
    if order == [] then []
    else EncodeAll(t, order[..|order| - 1]) + EncodeOne(order[|order| - 1], t[order[|order| - 1]].sequenceNumber)
  }

  function Encode(t: Table, order: seq<ClientId>): seq<byte>
    requires forall c | c in order :: c in t
  {
    Put(|order|, W4) + EncodeAll(t, order)
  }

  /** The result of reading: whether it worked, the table so far, and the bytes not read. */
  datatype Parsed = Parsed(ok: bool, table: Table, rest: seq<byte>)

  function ParseOne(p: Parsed): Parsed {
    if |p.rest| < W4 then p.(ok := false)
    else
      var n := Get(p.rest[..W4]);
      if |p.rest| < W4 + n + W8 then p.(ok := false)
      else
        var client, number := p.rest[W4..W4 + n], Get(p.rest[W4 + n..W4 + n + W8]);
        Parsed(true, p.table[client := Session(number, [])], p.rest[W4 + n + W8..])
  }

  function ParseAll(p: Parsed, count: nat): Parsed
    decreases count
  {
    if count == 0 || !p.ok then p else ParseAll(ParseOne(p), count - 1)
  }

  /** The same clients and numbers, with the results forgotten. */
  function Cleared(t: Table): Table {
    map c | c in t :: Session(t[c].sequenceNumber, [])
  }

  function ClearedOn(t: Table, clients: seq<ClientId>): Table
    requires forall c | c in clients :: c in t
  {
    map c | c in clients :: Session(t[c].sequenceNumber, [])
  }

  lemma ThreeParts(a: seq<byte>, b: seq<byte>, c: seq<byte>, d: seq<byte>)
    ensures a + (b + c + d) == a + b + c + d
  {
  }

  /** One client takes four bytes for the length of its id, the id, and eight bytes for its number. */
  lemma LayoutOfOne(t: Table, client: ClientId)
    requires client in t
    ensures Encode(t, []) == Put(0, 4)
    ensures Encode(t, [client]) == Put(1, 4) + Put(|client|, 4) + client + Put(t[client].sequenceNumber, 8)
  {
    EncodeAllLast(t, [], client);
    assert [] + [client] == [client];
    var number := t[client].sequenceNumber;
    assert [] + EncodeOne(client, number) == EncodeOne(client, number);
    ThreeParts(Put(1, 4), Put(|client|, 4), client, Put(number, 8));
  }

  lemma ParseEncodedOne(table: Table, client: ClientId, number: nat, rest: seq<byte>)
    requires |client| < Range(W4) && number < Range(W8)
    ensures ParseOne(Parsed(true, table, EncodeOne(client, number) + rest)) ==
      Parsed(true, table[client := Session(number, [])], rest)
  {
    var s, n := EncodeOne(client, number) + rest, |client|;
    GetPut(n, W4);
    GetPut(number, W8);
    assert s[..W4] == Put(n, W4) && s[W4..W4 + n] == client && s[W4 + n..W4 + n + W8] == Put(number, W8);
    assert s[W4 + n + W8..] == rest;
  }

  lemma {:induction false} ParseAllLast(p: Parsed, count: nat)
    requires p.ok && ParseAll(p, count).ok
    ensures ParseAll(p, count + 1) == ParseOne(ParseAll(p, count))
    decreases count
  {
    if count > 0 {
      ParseAllLast(ParseOne(p), count - 1);
    }
  }

  lemma ClearedOnLast(t: Table, front: seq<ClientId>, last: ClientId)
    requires (forall c | c in front :: c in t) && last in t
    ensures ClearedOn(t, front + [last]) == ClearedOn(t, front)[last := Session(t[last].sequenceNumber, [])]
  {
  }

  lemma EncodeAllLast(t: Table, front: seq<ClientId>, last: ClientId)
    requires (forall c | c in front :: c in t) && last in t
    ensures EncodeAll(t, front + [last]) == EncodeAll(t, front) + EncodeOne(last, t[last].sequenceNumber)
  {
    assert (front + [last])[..|front|] == front;
  }

  lemma ParseEncodedLast(p: Parsed, t: Table, front: seq<ClientId>, last: ClientId, rest: seq<byte>)
    requires (forall c | c in front :: c in t) && last in t && |last| < Range(W4) && t[last].sequenceNumber < Range(W8)
    requires p.ok
    requires ParseAll(p, |front|) == Parsed(true, ClearedOn(t, front), EncodeOne(last, t[last].sequenceNumber) + rest)
    ensures ParseAll(p, |front| + 1) == Parsed(true, ClearedOn(t, front + [last]), rest)
  {
    ParseAllLast(p, |front|);
    ParseEncodedOne(ClearedOn(t, front), last, t[last].sequenceNumber, rest);
    ClearedOnLast(t, front, last);
  }

  lemma EncodeAllSplit(t: Table, front: seq<ClientId>, last: ClientId, rest: seq<byte>)
    requires (forall c | c in front :: c in t) && last in t
    ensures EncodeAll(t, front + [last]) + rest ==
      EncodeAll(t, front) + (EncodeOne(last, t[last].sequenceNumber) + rest)
  {
    EncodeAllLast(t, front, last);
    var one := EncodeOne(last, t[last].sequenceNumber);
    assert (EncodeAll(t, front) + one) + rest == EncodeAll(t, front) + (one + rest);
  }

  /** The reader's state once it has read the encodings of these clients. */
  predicate Reads(t: Table, order: seq<ClientId>, data: seq<byte>, rest: seq<byte>)
    requires forall c | c in order :: c in t
  {
    ParseAll(Parsed(true, map[], data), |order|) == Parsed(true, ClearedOn(t, order), rest)
  }

  lemma {:induction false} ParseEncoded(t: Table, order: seq<ClientId>, rest: seq<byte>)
    requires (forall c | c in order :: c in t) && Fits(t, order)
    ensures Reads(t, order, EncodeAll(t, order) + rest, rest)
    decreases |order|
  {
    if order == [] {
      assert EncodeAll(t, order) + rest == rest;
    } else {
      var n := |order| - 1;
      var front, last := order[..n], order[n];
      assert order == front + [last];
      var data := EncodeAll(t, order) + rest;
      EncodeAllSplit(t, front, last, rest);
      ParseEncoded(t, front, EncodeOne(last, t[last].sequenceNumber) + rest);
      ParseEncodedLast(Parsed(true, map[], data), t, front, last, rest);
    }
  }

  /** Reading the whole of `data`. */
  function Decode(data: seq<byte>): Parsed {
    if |data| < W4 then Parsed(false, map[], data) else ParseAll(Parsed(true, map[], data[W4..]), Get(data[..W4]))
  }

  /** In whatever order the map is visited, what is read back has the same clients and numbers, with
      the results cleared, and exactly the bytes written have been read. */
  lemma DecodeEncode(t: Table, order: seq<ClientId>)
    requires Enumerates(order, t) && Fits(t, order)
    ensures Decode(Encode(t, order)) == Parsed(true, Cleared(t), [])
  {
    var data := Encode(t, order);
    GetPut(|order|, W4);
    assert data[..W4] == Put(|order|, W4) && data[W4..] == EncodeAll(t, order) + [];
    ParseEncoded(t, order, []);
    assert ClearedOn(t, order) == Cleared(t);
  }

  /** A cursor over bytes.  A read past the end fails and moves nothing. */
  class ByteReader {
    const data: seq<byte>
    var offset: nat

    ghost predicate Valid()
      reads this
    {
      offset <= |data|
    }

    function Rest(): seq<byte>
      requires Valid()
      reads this
    {
      data[offset..]
    }

    constructor (bytes: seq<byte>)
      ensures Valid() && Rest() == bytes
    {
      data, offset := bytes, 0;
    }

    method ReadBytes(n: nat) returns (bytes: Option<seq<byte>>)
      requires Valid()
      modifies this
      ensures Valid()
      ensures if n <= |old(Rest())| then bytes == Some(old(Rest())[..n]) && Rest() == old(Rest())[n..]
              else bytes == None && Rest() == old(Rest())
    {
      if offset + n > |data| {
        return None;
      }
      assert data[offset..][..n] == data[offset..offset + n] && data[offset..][n..] == data[offset + n..];
      bytes := Some(data[offset..offset + n]);
      offset := offset + n;
    }

    method ReadNumber(width: nat) returns (number: Option<nat>)
      requires Valid()
      modifies this
      ensures Valid()
      ensures if width <= |old(Rest())| then number == Some(Get(old(Rest())[..width])) && Rest() == old(Rest())[width..]
              else number == None && Rest() == old(Rest())
    {
      var bytes := ReadBytes(width);
      number := if bytes.Some? then Some(Get(bytes.value)) else None;
    }
  }

  class SessionTable {
    var sessions: Table

    constructor ()
      ensures sessions == map[]
    {
      sessions := map[];
    }

    /** Has this request, or a later one of its client, been applied?  Then with what result? */
    method IsDuplicate(client: ClientId, number: nat) returns (duplicate: bool, result: Answer)
      ensures duplicate == Sessions.IsDuplicate(sessions, client, number)
      ensures result == if duplicate then sessions[client].result else []
    {
      if client == [] || client !in sessions {
        return false, [];
      }
      if number <= sessions[client].sequenceNumber {
        return true, sessions[client].result;
      }
      return false, [];
    }

    method Record(client: ClientId, number: nat, result: Answer)
      modifies this
      ensures sessions == Sessions.Record(old(sessions), client, number, result)
    {
      if client != [] && (client !in sessions || number > sessions[client].sequenceNumber) {
        sessions := sessions[client := Session(number, result)];
      }
    }

    /** A first pass adds up the size, a second fills the buffer; each visits the map in an order of its own. */
    method Serialize(first: seq<ClientId>, order: seq<ClientId>) returns (buffer: array<byte>)
      requires Enumerates(first, sessions) && Enumerates(order, sessions)
      ensures fresh(buffer) && buffer[..] == Encode(sessions, order)
    {
      var size := TotalSize(first);
      SameSize(sessions, first, order);
      EnumerationSize(sessions, order);
      buffer := new byte[size](_ => 0);
      var offset := PutAt(buffer, 0, |sessions|, W4);
      offset := WriteAll(buffer, offset, order);
      assert buffer[..] == buffer[..offset];
    }

    method WriteAll(buffer: array<byte>, start: nat, order: seq<ClientId>) returns (offset: nat)
      requires forall c | c in order :: c in sessions
      requires start + |EncodeAll(sessions, order)| <= buffer.Length
      modifies buffer
      ensures offset == start + |EncodeAll(sessions, order)|
      ensures buffer[..offset] == old(buffer[..start]) + EncodeAll(sessions, order)
    {
      ghost var head := buffer[..start];
      var i := 0;
      offset := start;
      while i < |order|
        invariant i <= |order| && offset == start + |EncodeAll(sessions, order[..i])| <= buffer.Length
        invariant buffer[..offset] == head + EncodeAll(sessions, order[..i])
      {
        ghost var done, one := EncodeAll(sessions, order[..i]), EncodeOne(order[i], sessions[order[i]].sequenceNumber);
        LaterSize(sessions, order, i + 1);
        EncodeAllLast(sessions, order[..i], order[i]);
        assert order[..i + 1] == order[..i] + [order[i]];
        offset := WriteOne(buffer, offset, order[i], sessions[order[i]].sequenceNumber);
        assert head + done + one == head + (done + one);
        i := i + 1;
      }
      assert order[..i] == order;
    }

    method TotalSize(order: seq<ClientId>) returns (size: nat)
      requires forall c | c in order :: c in sessions
      ensures size == W4 + |EncodeAll(sessions, order)|
    {
      var i := 0;
      size := W4;
      while i < |order|
        invariant i <= |order| && size == W4 + |EncodeAll(sessions, order[..i])|
      {
        assert order[..i + 1][..i] == order[..i];
        size := size + W4 + |order[i]| + W8;
        i := i + 1;
      }
      assert order[..i] == order;
    }

    /** The table is emptied first; a failure part way leaves what has been read so far. */
    method Deserialize(data: seq<byte>) returns (ok: bool)
      modifies this
      ensures |data| < W4 ==> !ok && sessions == old(sessions)
      ensures |data| >= W4 ==> ok == Decode(data).ok && sessions == Decode(data).table
    {
      if |data| < W4 {
        return false;
      }
      var reader := new ByteReader(data);
      var count := reader.ReadNumber(W4);
      sessions := map[];
      ok := ReadAll(reader, count.value);
    }

    method ReadAll(reader: ByteReader, count: nat) returns (ok: bool)
      requires reader.Valid()
      modifies this, reader
      ensures var p := ParseAll(Parsed(true, old(sessions), old(reader.Rest())), count);
        ok == p.ok && sessions == p.table
    {
      ghost var all := ParseAll(Parsed(true, sessions, reader.Rest()), count);
      var i := 0;
      while i < count
        invariant i <= count && reader.Valid()
        invariant ParseAll(Parsed(true, sessions, reader.Rest()), count - i) == all
      {
        var read := ReadOne(reader);
        if !read {
          return false;
        }
        i := i + 1;
      }
      return true;
    }

    method ReadOne(reader: ByteReader) returns (ok: bool)
      requires reader.Valid()
      modifies this, reader
      ensures reader.Valid()
      ensures var p := ParseOne(Parsed(true, old(sessions), old(reader.Rest())));
        ok == p.ok && sessions == p.table && (ok ==> reader.Rest() == p.rest)
    {
      ghost var s := reader.Rest();
      var n := reader.ReadNumber(W4);
      if n.None? {
        return false;
      }
      var client := reader.ReadBytes(n.value);
      if client.None? {
        return false;
      }
      assert client.value == s[W4..W4 + n.value] && reader.Rest() == s[W4 + n.value..];
      var number := reader.ReadNumber(W8);
      if number.None? {
        return false;
      }
      assert s[W4 + n.value..][..W8] == s[W4 + n.value..W4 + n.value + W8];
      assert reader.Rest() == s[W4 + n.value + W8..];
      sessions := sessions[client.value := Session(number.value, [])];
      return true;
    }
  }

  method WriteOne(buffer: array<byte>, offset: nat, client: ClientId, number: nat) returns (next: nat)
    requires offset + |EncodeOne(client, number)| <= buffer.Length
    modifies buffer
    ensures next == offset + |EncodeOne(client, number)|
    ensures buffer[..next] == old(buffer[..offset]) + EncodeOne(client, number)
  {
    next := PutAt(buffer, offset, |client|, W4);
    next := CopyAt(buffer, next, client);
    next := PutAt(buffer, next, number, W8);
    Regroup(old(buffer[..offset]), Put(|client|, W4), client, Put(number, W8));
  }

  lemma Regroup(a: seq<byte>, b: seq<byte>, c: seq<byte>, d: seq<byte>)
    ensures a + b + c + d == a + (b + c + d)
  {
  }

  lemma {:induction false} LaterSize(t: Table, order: seq<ClientId>, k: nat)
    requires (forall c | c in order :: c in t) && k <= |order|
    ensures |EncodeAll(t, order[..k])| <= |EncodeAll(t, order)|
    decreases |order| - k
  {
    if k < |order| {
      LaterSize(t, order, k + 1);
      assert order[..k + 1][..k] == order[..k];
    } else {
      assert order[..k] == order;
    }
  }

  lemma {:induction false} SizeWithout(t: Table, order: seq<ClientId>, k: nat)
    requires (forall c | c in order :: c in t) && k < |order|
    ensures |EncodeAll(t, order)| == |EncodeAll(t, order[..k] + order[k + 1..])| + W4 + |order[k]| + W8
  {
    var n := |order| - 1;
    var others := order[..k] + order[k + 1..];
    if k < n {
      SizeWithout(t, order[..n], k);
      assert others[..n - 1] == order[..n][..k] + order[..n][k + 1..];
      assert others[n - 1] == order[n];
    } else {
      assert others == order[..n];
    }
  }

  lemma Removed(order: seq<ClientId>, k: nat)
    requires k < |order| && forall i, j | 0 <= i < j < |order| :: order[i] != order[j]
    ensures forall c :: c in order[..k] + order[k + 1..] <==> c in order && c != order[k]
  {
    var others := order[..k] + order[k + 1..];
    forall c | c in order && c != order[k]
      ensures c in others
    {
      var i :| 0 <= i < |order| && order[i] == c;
      assert others[if i < k then i else i - 1] == c;
    }
  }

  lemma SomeMember(order: seq<ClientId>)
    ensures order != [] ==> exists c :: c in order
  {
    if order != [] {
      assert order[0] in order;
    }
  }

  /** Two enumerations of one table give encodings of one size. */
  lemma {:induction false} SameSize(t: Table, a: seq<ClientId>, b: seq<ClientId>)
    requires (forall c | c in a :: c in t) && (forall c :: c in a <==> c in b)
    requires (forall i, j | 0 <= i < j < |a| :: a[i] != a[j]) && (forall i, j | 0 <= i < j < |b| :: b[i] != b[j])
    ensures |EncodeAll(t, a)| == |EncodeAll(t, b)|
  {
    if a == [] {
      SomeMember(b);
    } else {
      var n := |a| - 1;
      assert a[n] in b;
      var k :| 0 <= k < |b| && b[k] == a[n];
      SizeWithout(t, b, k);
      Removed(a, n);
      Removed(b, k);
      assert a[..n] + a[n + 1..] == a[..n];
      assert forall c :: c in a[..n] <==> c in a && c != a[n];
      assert forall c :: c in b[..k] + b[k + 1..] <==> c in b && c != b[k];
      SameSize(t, a[..n], b[..k] + b[k + 1..]);
    }
  }

  lemma EnumerationSize(t: Table, order: seq<ClientId>)
    requires Enumerates(order, t)
    ensures |order| == |t|
  {
    DistinctSize(order);
    assert t.Keys == set c | c in order;
  }

  lemma {:induction false} DistinctSize(order: seq<ClientId>)
    requires forall i, j | 0 <= i < j < |order| :: order[i] != order[j]
    ensures |set c | c in order| == |order|
  {
    if order != [] {
      var front := order[..|order| - 1];
      DistinctSize(front);
      assert (set c | c in order) == (set c | c in front) + {order[|order| - 1]};
    }
  }
}
