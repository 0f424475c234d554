/** The binary form of log entries.  Two layouts share it, and only the bytes tell them apart. */
module LogEntryCodec {
  import opened Types
  import opened Bytes

  const MAX_CLIENT_ID := 1024

  /** The two numbers are uint64. */
  predicate Fits(e: LogEntry) {
    e.term < Range(W8) && e.sequenceNumber < Range(W8)
  }

  /** Everything after the term: the bare data, or a client header and the data. */
  function Body(e: LogEntry): seq<byte> {
    if e.clientId == [] && e.sequenceNumber == 0 then e.data
    else Header(e.clientId, e.sequenceNumber) + e.data
  }

  /** The length of the id is cut to 32 bits. */
  function Header(clientId: seq<byte>, sequenceNumber: nat): (s: seq<byte>)
    ensures |s| == W4 + |clientId| + W8
  {
    Put(Length32(clientId), W4) + clientId + Put(sequenceNumber, W8)
  }

  function Length32(s: seq<byte>): nat {
    Ranges();
    |s| % Range(W4)
  }

  function Encode(e: LogEntry): seq<byte> {
    Put(e.term, W8) + Body(e)
  }

  /** Bytes that read as the length, the id and the number of a client, with anything after them. */
  predicate HasHeader(s: seq<byte>) {
    |s| >= W4 && 0 < Get(s[..W4]) <= MAX_CLIENT_ID && |s| >= W4 + Get(s[..W4]) + W8
  }

  function DecodeBody(term: nat, s: seq<byte>): LogEntry {
    if HasHeader(s) then
      var n := Get(s[..W4]);
      LogEntry(term, s[W4..W4 + n], Get(s[W4 + n..W4 + n + W8]), s[W4 + n + W8..])
    else LogEntry(term, [], 0, s)
  }

  function Decode(b: seq<byte>): Option<LogEntry> {
    if |b| < W8 then None else Some(DecodeBody(Get(b[..W8]), b[W8..]))
  }

  lemma BodyDecode(term: nat, s: seq<byte>)
    ensures Body(DecodeBody(term, s)) == s && DecodeBody(term, s).sequenceNumber < Range(W8)
  {
    if HasHeader(s) {
      var n := Get(s[..W4]);
      Reheaded(s, n);
      InFour(s, W4, W4 + n, W4 + n + W8);
    }
  }

  /** The header read from the bytes is written as the bytes were. */
  lemma Reheaded(s: seq<byte>, n: nat)
    requires HasHeader(s) && n == Get(s[..W4])
    ensures Header(s[W4..W4 + n], Get(s[W4 + n..W4 + n + W8])) ==
      s[..W4] + s[W4..W4 + n] + s[W4 + n..W4 + n + W8]
    ensures Get(s[W4 + n..W4 + n + W8]) < Range(W8)
  {
    Ranges();
    PutGet(s[..W4]);
    PutGet(s[W4 + n..W4 + n + W8]);
  }

  lemma InFour(s: seq<byte>, i: nat, j: nat, k: nat)
    requires i <= j <= k <= |s|
    ensures s[..i] + s[i..j] + s[j..k] + s[k..] == s
  {
  }

  /** What a node reads from its log and writes again, or sends on, is byte for byte the same. */
  lemma EncodeDecode(b: seq<byte>)
    requires |b| >= W8
    ensures Decode(b).Some? && Fits(Decode(b).value) && Encode(Decode(b).value) == b
  {
    PutGet(b[..W8]);
    BodyDecode(Get(b[..W8]), b[W8..]);
    assert b == b[..W8] + b[W8..];
  }

  /** The bytes of an entry: its term in eight bytes, then, unless there is neither an id nor a number, the length
      of the id in four, the id, and the number in eight; then the data. */
  lemma Layout(e: LogEntry)
    ensures var b, n := Encode(e), |e.clientId|;
      && |b| >= 8 && b[..8] == Put(e.term, 8)
      && (e.clientId == [] && e.sequenceNumber == 0 ==> b[8..] == e.data)
      && (e.clientId != [] || e.sequenceNumber != 0 ==>
            (|b| == 20 + n + |e.data| && b[8..12] == Put(n % 0x1_0000_0000, 4) && b[12..12 + n] == e.clientId &&
             b[12 + n..20 + n] == Put(e.sequenceNumber, 8) && b[20 + n..] == e.data))
  {
    Ranges();
    var b, n := Encode(e), |e.clientId|;
    assert b[8..] == Body(e);
    if !(e.clientId == [] && e.sequenceNumber == 0) {
      var head := Header(e.clientId, e.sequenceNumber);
      assert b[8..20 + n] == head && b[8..12] == head[..4];
      assert b[12..12 + n] == head[4..4 + n] && b[12 + n..20 + n] == head[4 + n..];
    }
  }

  /** An entry whose fields come back as they were. */
  predicate Clear(e: LogEntry) {
    1 <= |e.clientId| <= MAX_CLIENT_ID || (e.clientId == [] && e.sequenceNumber == 0 && !HasHeader(e.data))
  }

  /** Entries are clear whose id has 1 to 1024 bytes, and entries with neither id nor number whose data does not
      start with a number of four bytes between 1 and 1024, with as many bytes and eight more after it. */
  lemma ClearExactly(e: LogEntry)
    ensures var d := e.data;
      Clear(e) <==> (if e.clientId != [] then |e.clientId| <= 1024
                     else (e.sequenceNumber == 0 &&
                           (|d| < 4 || !Framed(d, Four(d[0], d[1], d[2], d[3])))))
  {
    if |e.data| >= 4 {
      FromDigits(e.data[..4]);
    }
  }

  /** Room for an id of n bytes, which may not be empty or too long, and for the number after it. */
  predicate Framed(s: seq<byte>, n: int) {
    1 <= n <= 1024 && |s| >= 12 + n
  }

  lemma HeaderParts(clientId: seq<byte>, sequenceNumber: nat, data: seq<byte>)
    requires sequenceNumber < Range(W8)
    ensures var s := Header(clientId, sequenceNumber) + data; var n := |clientId|;
      && Get(s[..W4]) == Length32(clientId) && s[W4..W4 + n] == clientId
      && Get(s[W4 + n..W4 + n + W8]) == sequenceNumber && s[W4 + n + W8..] == data
  {
    var s, n := Header(clientId, sequenceNumber) + data, |clientId|;
    Ranges();
    GetPut(Length32(clientId), W4);
    GetPut(sequenceNumber, W8);
    assert s[..W4] == Put(Length32(clientId), W4);
    assert s[W4 + n..W4 + n + W8] == Put(sequenceNumber, W8);
  }

  lemma DecodeBodyOf(e: LogEntry)
    requires Fits(e)
    ensures DecodeBody(e.term, Body(e)) == e <==> Clear(e)
  {
    Ranges();
    var n := |e.clientId|;
    if !(e.clientId == [] && e.sequenceNumber == 0) {
      HeaderParts(e.clientId, e.sequenceNumber, e.data);
      assert n <= MAX_CLIENT_ID ==> Length32(e.clientId) == n;
      assert n > MAX_CLIENT_ID ==> |DecodeBody(e.term, Body(e)).clientId| <= MAX_CLIENT_ID;
    }
  }

  /** Decoding what was encoded always keeps the term, and gives the whole entry back exactly when it is clear. */
  lemma DecodeEncode(e: LogEntry)
    requires Fits(e)
    ensures Decode(Encode(e)).Some? && Decode(Encode(e)).value.term == e.term
    ensures Decode(Encode(e)) == Some(e) <==> Clear(e)
  {
    var b := Encode(e);
    GetPut(e.term, W8);
    assert b[..W8] == Put(e.term, W8) && b[W8..] == Body(e);
    DecodeBodyOf(e);
  }

  // ----- what becomes of an entry in the log -----

  /** The entry that is read back, by whichever node, once this one has been written to a log. */
  function Stored(e: LogEntry): LogEntry {
    Decode(Encode(e)).value
  }

  /** Writing what was read from a log, as followers do, changes nothing any more. */
  lemma StoredAgain(e: LogEntry)
    ensures Stored(Stored(e)) == Stored(e)
  {
    EncodeDecode(Encode(e));
  }

  /** An entry that is not clear comes back with other data, longer or shorter. */
  lemma StoredData(e: LogEntry)
    requires Fits(e) && !Clear(e)
    ensures |Stored(e).data| != |e.data|
  {
    Ranges();
    GetPut(e.term, W8);
    var b := Encode(e);
    assert b[..W8] == Put(e.term, W8) && b[W8..] == Body(e);
    if !(e.clientId == [] && e.sequenceNumber == 0) {
      HeaderParts(e.clientId, e.sequenceNumber, e.data);
    }
  }

  /** Data sent without a session that reads as a client header comes back as that client's request. */
  lemma StoredHeader(term: nat, clientId: seq<byte>, sequenceNumber: nat, rest: seq<byte>)
    requires term < Range(W8) && sequenceNumber < Range(W8) && 1 <= |clientId| <= MAX_CLIENT_ID
    ensures Stored(LogEntry(term, [], 0, Header(clientId, sequenceNumber) + rest)) ==
      LogEntry(term, clientId, sequenceNumber, rest)
  {
    var e := LogEntry(term, clientId, sequenceNumber, rest);
    assert Encode(LogEntry(term, [], 0, Header(clientId, sequenceNumber) + rest)) == Encode(e);
    DecodeEncode(e);
  }

  /** A request under an id that is too long comes back without a session. */
  lemma StoredLongId(e: LogEntry)
    requires Fits(e) && MAX_CLIENT_ID < |e.clientId| < Range(W4)
    ensures Stored(e) == LogEntry(e.term, [], 0, Header(e.clientId, e.sequenceNumber) + e.data)
  {
    Ranges();
    GetPut(e.term, W8);
    HeaderParts(e.clientId, e.sequenceNumber, e.data);
    var b := Encode(e);
    assert b[..W8] == Put(e.term, W8) && b[W8..] == Body(e);
  }

  /** The buffer is allocated at its final size and filled field by field. */
  method Serialize(e: LogEntry) returns (buffer: array<byte>)
    ensures fresh(buffer) && buffer[..] == Encode(e)
  {
    if e.clientId == [] && e.sequenceNumber == 0 {
      buffer := new byte[W8 + |e.data|](_ => 0);
      var offset := PutAt(buffer, 0, e.term, W8);
      offset := CopyAt(buffer, offset, e.data);
      assert buffer[..] == buffer[..offset];
    } else {
      buffer := SerializeWithClient(e.term, e.clientId, e.sequenceNumber, e.data);
    }
  }

  method SerializeWithClient(term: nat, clientId: seq<byte>, sequenceNumber: nat, data: seq<byte>)
    returns (buffer: array<byte>)
    ensures fresh(buffer) && buffer[..] == Put(term, W8) + (Header(clientId, sequenceNumber) + data)
  {
    buffer := new byte[W8 + W4 + |clientId| + W8 + |data|](_ => 0);
    var offset := PutAt(buffer, 0, term, W8);
    offset := PutAt(buffer, offset, Length32(clientId), W4);
    offset := CopyAt(buffer, offset, clientId);
    offset := PutAt(buffer, offset, sequenceNumber, W8);
    offset := CopyAt(buffer, offset, data);
    assert buffer[..] == buffer[..offset];
    Regroup(Put(term, W8), Put(Length32(clientId), W4), clientId, Put(sequenceNumber, W8), data);
  }

  lemma Regroup(a: seq<byte>, b: seq<byte>, c: seq<byte>, d: seq<byte>, e: seq<byte>)
    ensures [] + a + b + c + d + e == a + ((b + c + d) + e)
  {
  }
}
