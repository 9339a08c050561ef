/** Bytes in a buffer: little-endian numbers, and stretches of a buffer with known content. */
module Wire {
  newtype byte = x: int | 0 <= x < 256

  const ULONG_SIZE: nat := 4
  const ADDRESS_SIZE: nat := 8
  const WCHAR_SIZE: nat := 2
  const ULONG_LIMIT: nat := 0x1_0000_0000

  type Ulong = x: int | 0 <= x < 0x1_0000_0000
  type Pointer = x: int | 0 <= x < 0x1_0000_0000_0000_0000

  function Limit(n: nat): (r: nat)
    ensures r >= 1
  {
    if n == 0 then 1 else 256 * Limit(n - 1)
  }

  /** The n low bytes of v, least significant first. */
  function Bytes(v: nat, n: nat): (b: seq<byte>)
    ensures |b| == n
    decreases n
  {
    if n == 0 then [] else [(v % 256) as byte] + Bytes(v / 256, n - 1)
  }

  function Value(b: seq<byte>): nat {
    if b == [] then 0 else b[0] as int + 256 * Value(b[1..])
  }

  lemma {:induction false} ValueOfBytes(v: nat, n: nat)
    requires v < Limit(n)
    ensures Value(Bytes(v, n)) == v
    decreases n
  {
    if n > 0 {
      ValueOfBytes(v / 256, n - 1);
      assert Bytes(v, n)[1..] == Bytes(v / 256, n - 1);
    }
  }

  /** The byte at the lowest address counts least. */
  lemma LittleEndian(b: seq<byte>)
    requires |b| == ULONG_SIZE
    ensures Value(b) == b[0] as int + 0x100 * (b[1] as int) + 0x1_0000 * (b[2] as int) + 0x100_0000 * (b[3] as int)
  {
    assert Value(b[1..]) == b[1] as int + 256 * Value(b[2..]) by { assert b[1..][1..] == b[2..]; }
    assert Value(b[2..]) == b[2] as int + 256 * Value(b[3..]) by { assert b[2..][1..] == b[3..]; }
    assert Value(b[3..]) == b[3] as int by { assert b[3..][1..] == []; }
  }

  lemma LittleEndianPointer(b: seq<byte>)
    requires |b| == ADDRESS_SIZE
    ensures Value(b) == Value(b[..4]) + 0x1_0000_0000 * Value(b[4..])
  {
    ValueSplit(b[..4], b[4..]);
    assert b == b[..4] + b[4..] && Limit(4) == 0x1_0000_0000 by { assert Limit(2) == 0x1_0000; }
  }

  lemma {:induction false} ValueSplit(a: seq<byte>, b: seq<byte>)
    ensures Value(a + b) == Value(a) + Limit(|a|) * Value(b)
  {
    if a == [] {
      assert a + b == b;
    } else {
      assert (a + b)[1..] == a[1..] + b;
      ValueSplit(a[1..], b);
      assert Limit(|a|) * Value(b) == 256 * (Limit(|a| - 1) * Value(b));
    }
  }

  lemma {:induction false} ValueBelowLimit(b: seq<byte>)
    ensures Value(b) < Limit(|b|)
  {
    if b != [] { ValueBelowLimit(b[1..]); }
  }

  /** Four bytes as a number, and eight. */
  function UlongOf(b: seq<byte>): (v: Ulong)
    requires |b| == ULONG_SIZE
    ensures v == Value(b)
  {
    assert Limit(4) == 0x1_0000_0000 by { assert Limit(2) == 0x1_0000; }
    ValueBelowLimit(b);
    Value(b)
  }

  function PointerOf(b: seq<byte>): (v: Pointer)
    requires |b| == ADDRESS_SIZE
    ensures v == Value(b)
  {
    LimitOf8();
    ValueBelowLimit(b);
    Value(b)
  }

  lemma LimitOf8()
    ensures Limit(8) == 0x1_0000_0000_0000_0000
  {
    assert Limit(4) == 0x1_0000_0000 by { assert Limit(2) == 0x1_0000; }
    assert Limit(6) == 0x1_0000_0000_0000;
  }

  function UlongBytes(v: Ulong): (b: seq<byte>)
    ensures |b| == ULONG_SIZE && Value(b) == v
  {
    assert Limit(4) == 0x1_0000_0000 by { assert Limit(2) == 0x1_0000; }
    ValueOfBytes(v, 4);
    Bytes(v, 4)
  }

  function PointerBytes(v: Pointer): (b: seq<byte>)
    ensures |b| == ADDRESS_SIZE && Value(b) == v
  {
    LimitOf8();
    ValueOfBytes(v, 8);
    Bytes(v, 8)
  }

  /** The buffer has these bytes at this offset. */
  predicate Holds(buffer: seq<byte>, at: nat, bytes: seq<byte>) {
    at + |bytes| <= |buffer| && buffer[at..at + |bytes|] == bytes
  }

  lemma HoldsBoth(buffer: seq<byte>, at: nat, a: seq<byte>, b: seq<byte>)
    ensures Holds(buffer, at, a + b) <==> Holds(buffer, at, a) && Holds(buffer, at + |a|, b)
  {
    if at + |a| + |b| <= |buffer| {
      var all := buffer[at..at + |a| + |b|];
      assert all[..|a|] == buffer[at..at + |a|] && all[|a|..] == buffer[at + |a|..at + |a| + |b|];
      assert (a + b)[..|a|] == a && (a + b)[|a|..] == b;
      assert all == all[..|a|] + all[|a|..];
    }
  }

  /** The buffers agree outside a stretch. */
  ghost predicate SameOutside(a: seq<byte>, b: seq<byte>, from: nat, to: nat) {
    |a| == |b| && forall i :: 0 <= i < |a| && !(from <= i < to) ==> a[i] == b[i]
  }

  lemma HoldsStill(a: seq<byte>, b: seq<byte>, from: nat, to: nat, at: nat, bytes: seq<byte>)
    requires SameOutside(a, b, from, to) && Holds(a, at, bytes) && (at + |bytes| <= from || to <= at)
    ensures Holds(b, at, bytes)
  {
    assert b[at..at + |bytes|] == a[at..at + |bytes|];
  }

  /** memcpy into the buffer. */
  method Put(buffer: array<byte>, at: nat, bytes: seq<byte>)
    requires at + |bytes| <= buffer.Length
    modifies buffer
    ensures buffer[..] == old(buffer[..at]) + bytes + old(buffer[at + |bytes|..])
    ensures Holds(buffer[..], at, bytes) && SameOutside(old(buffer[..]), buffer[..], at, at + |bytes|)
  {
    var i := 0;
    while i < |bytes|
      invariant i <= |bytes|
      invariant forall k :: 0 <= k < i ==> buffer[at + k] == bytes[k]
      invariant forall k :: 0 <= k < buffer.Length && !(at <= k < at + i) ==> buffer[k] == old(buffer[k])
    {
      buffer[at + i] := bytes[i];
      i := i + 1;
    }
  }
}
