/** Values shared by every part of the model. */
module Types {

  datatype Option<+T> = None | Some(value: T)

  type byte = b: int | 0 <= b < 256

  /** One log entry.  Client ids are Go strings, that is, byte strings; an empty one means
      "no session".  The two numbers are uint64 in the program: the codec says so where it matters. */
  datatype LogEntry = LogEntry(term: nat, clientId: seq<byte>, sequenceNumber: nat, data: seq<byte>)

  /** What a new leader writes before it sends anything. */
  function NoOp(term: nat): LogEntry {
    LogEntry(term, [], 0, [])
  }

  function Max(a: nat, b: nat): nat {
    if a < b then b else a
  }

  function Min(a: nat, b: nat): nat {
    if a < b then a else b
  }
}
