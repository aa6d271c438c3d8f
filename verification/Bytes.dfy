/** Fixed-width integers as bytes, in either byte order. */
module Bytes {
  type byte = x: int | 0 <= x < 256

  datatype Endian = Little | Big

  function Pow256(n: nat): (r: nat)
    ensures r > 0
  {
    if n == 0 then 1 else 256 * Pow256(n - 1)
  }

  function LittleBytes(n: nat, width: nat): (r: seq<byte>)
    ensures |r| == width
  {
    if width == 0 then [] else [n % 256] + LittleBytes(n / 256, width - 1)
  }

  function FromLittle(b: seq<byte>): nat {
    if b == [] then 0 else b[0] + 256 * FromLittle(b[1..])
  }

  function Reversed(b: seq<byte>): (r: seq<byte>)
    ensures |r| == |b|
  {
    seq(|b|, i requires 0 <= i < |b| => b[|b| - 1 - i])
  }

  function ToBytes(e: Endian, n: nat, width: nat): (r: seq<byte>)
    ensures |r| == width
  {
    if e.Little? then LittleBytes(n, width) else Reversed(LittleBytes(n, width))
  }

  function FromBytes(e: Endian, b: seq<byte>): nat {
    if e.Little? then FromLittle(b) else FromLittle(Reversed(b))
  }

  lemma {:induction false} LittleRoundTrip(n: nat, width: nat)
    requires n < Pow256(width)
    ensures FromLittle(LittleBytes(n, width)) == n
  {
    if width > 0 {
      LittleRoundTrip(n / 256, width - 1);
      assert LittleBytes(n, width)[1..] == LittleBytes(n / 256, width - 1);
    }
  }

  /** Every number that fits the width is read back. */
  lemma BytesRoundTrip(e: Endian, n: nat, width: nat)
    requires n < Pow256(width)
    ensures FromBytes(e, ToBytes(e, n, width)) == n
  {
    LittleRoundTrip(n, width);
    var b := LittleBytes(n, width);
    assert Reversed(Reversed(b)) == b;
  }

  lemma {:induction false} FromLittleBound(b: seq<byte>)
    ensures FromLittle(b) < Pow256(|b|)
  {
    if b != [] {
      FromLittleBound(b[1..]);
    }
  }

  lemma FromBytesBound(e: Endian, b: seq<byte>)
    ensures FromBytes(e, b) < Pow256(|b|)
  {
    FromLittleBound(b);
    FromLittleBound(Reversed(b));
  }

  lemma Pow256Values()
    ensures Pow256(1) == 256 && Pow256(2) == 0x1_0000 && Pow256(4) == 0x1_0000_0000
  {
    assert Pow256(3) == 256 * Pow256(2);
  }
}
