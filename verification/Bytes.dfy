/** Little-endian numbers in byte buffers. */
module Bytes {
  import opened Types

  /** The widths of a uint32 and a uint64. */
  const W4: nat := 4
  const W8: nat := 8

  /** 256 to the k. */
  function Range(k: nat): nat {
    if k == 0 then 1 else 256 * Range(k - 1)
  }

  /** The k low bytes of n, least significant first. */
  function Put(n: nat, k: nat): (s: seq<byte>)
    ensures |s| == k
  {
    if k == 0 then [] else [n % 256] + Put(n / 256, k - 1)
  }

  function Get(s: seq<byte>): nat {
    if s == [] then 0 else s[0] + 256 * Get(s[1..])
  }

  lemma FourMore(n: nat, k: nat)
    ensures Put(n, k + 4) == [n % 256, n / 0x100 % 256, n / 0x1_0000 % 256, n / 0x100_0000 % 256] +
                             Put(n / 0x1_0000_0000, k)
  {
    assert Put(n, k + 4) == [n % 256] + Put(n / 256, k + 3);
    assert Put(n / 256, k + 3) == [n / 256 % 256] + Put(n / 256 / 256, k + 2);
    assert Put(n / 0x1_0000, k + 2) == [n / 0x1_0000 % 256] + Put(n / 0x1_0000 / 256, k + 1);
  }

  /** The least significant byte comes first. */
  lemma Digits(n: nat)
    ensures Put(n, W4) == [n % 256, n / 0x100 % 256, n / 0x1_0000 % 256, n / 0x100_0000 % 256]
    ensures Put(n, W8) == Put(n, W4) + Put(n / 0x1_0000_0000, W4)
  {
    FourMore(n, 0);
    FourMore(n, 4);
  }

  function Four(a: nat, b: nat, c: nat, d: nat): nat {
    a + 0x100 * b + 0x1_0000 * c + 0x100_0000 * d
  }

  /** Four bytes read as a number, the first of them the least significant. */
  lemma FromDigits(s: seq<byte>)
    requires |s| == W4
    ensures Get(s) == Four(s[0], s[1], s[2], s[3])
  {
    assert Get(s) == s[0] + 256 * Get(s[1..]);
    assert Get(s[1..]) == s[1] + 256 * Get(s[2..]);
    assert Get(s[2..]) == s[2] + 256 * Get(s[3..]);
  }

  lemma {:induction false} GetPut(n: nat, k: nat)
    ensures n < Range(k) ==> Get(Put(n, k)) == n
  {
    if k > 0 {
      GetPut(n / 256, k - 1);
      assert Put(n, k)[1..] == Put(n / 256, k - 1);
    }
  }

  lemma {:induction false} PutGet(s: seq<byte>)
    ensures Put(Get(s), |s|) == s && Get(s) < Range(|s|)
  {
    if s != [] {
      PutGet(s[1..]);
      assert Get(s) / 256 == Get(s[1..]) && Get(s) % 256 == s[0];
    }
  }

  lemma Ranges()
    ensures Range(W4) == 0x1_0000_0000 && Range(W8) == 0x1_0000_0000_0000_0000
  {
    assert Range(4) == 256 * 256 * 256 * 256 * Range(0);
    assert Range(8) == 256 * 256 * 256 * 256 * Range(4);
  }

  /** Copy bytes into the buffer at the running offset, and move the offset past them. */
  method CopyAt(buffer: array<byte>, offset: nat, s: seq<byte>) returns (next: nat)
    requires offset + |s| <= buffer.Length
    modifies buffer
    ensures next == offset + |s| && buffer[..next] == old(buffer[..offset]) + s
  {
    var i := 0;
    while i < |s|
      invariant i <= |s| && buffer[..offset + i] == old(buffer[..offset]) + s[..i]
    {
      buffer[offset + i] := s[i];
      i := i + 1;
    }
    next := offset + |s|;
  }

  /** Write the k low bytes of n at the running offset. */
  method PutAt(buffer: array<byte>, offset: nat, n: nat, k: nat) returns (next: nat)
    requires offset + k <= buffer.Length
    modifies buffer
    ensures next == offset + k && buffer[..next] == old(buffer[..offset]) + Put(n, k)
  {
    next := CopyAt(buffer, offset, Put(n, k));
  }
}
