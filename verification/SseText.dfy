/** Which byte strings are text: the UTF-8 encodings of Unicode scalar values (section 3 of RFC 3629). */
module SseText {
  import opened Bytes
  import opened SseCodec

  predicate IsScalar(c: nat) {
    c < 0xD800 || 0xE000 <= c < 0x11_0000
  }

  /** A byte after the first, with six bits of the value. */
  function Six(c: nat): byte {
    0x80 + c % 64
  }

  /** One to four bytes. */
  function EncodeChar(c: nat): (b: seq<byte>)
    requires IsScalar(c)
    ensures 1 <= |b| <= 4
  {
    if c < 0x80 then [c]
    else if c < 0x800 then [0xC0 + c / 64, Six(c)]
    else if c < 0x1_0000 then [0xE0 + c / 64 / 64, Six(c / 64), Six(c)]
    else [0xF0 + c / 64 / 64 / 64, Six(c / 64 / 64), Six(c / 64), Six(c)]
  }

  predicate AllScalars(cs: seq<nat>) {
    forall i :: 0 <= i < |cs| ==> IsScalar(cs[i])
  }

  function EncodeText(cs: seq<nat>): seq<byte>
    requires AllScalars(cs)
  {
    if cs == [] then [] else EncodeChar(cs[0]) + EncodeText(cs[1..])
  }

  lemma CharIsRecognised(c: nat, rest: seq<byte>)
    requires IsScalar(c)
    ensures CharLength(EncodeChar(c) + rest) == |EncodeChar(c)|
  {
    var b := EncodeChar(c) + rest;
    assert forall i :: 0 <= i < |EncodeChar(c)| ==> b[i] == EncodeChar(c)[i];
  }

  /** A value with six more bits. */
  function With(high: nat, tail: byte): nat
    requires Tail(tail)
  {
    64 * high + (tail - 0x80)
  }

  lemma WithSplits(high: nat, tail: byte)
    requires Tail(tail)
    ensures With(high, tail) / 64 == high && Six(With(high, tail)) == tail
  {
  }

  /** The scalar value at the front of the bytes. */
  function CharAt(b: seq<byte>): nat
    requires CharLength(b) > 0
  {
    if b[0] < 0x80 then b[0]
    else if b[0] < 0xE0 then With(b[0] - 0xC0, b[1])
    else if b[0] < 0xF0 then With(With(b[0] - 0xE0, b[1]), b[2])
    else With(With(With(b[0] - 0xF0, b[1]), b[2]), b[3])
  }

  lemma TwoBytes(b: seq<byte>)
    requires CharLength(b) == 2
    ensures IsScalar(CharAt(b)) && EncodeChar(CharAt(b)) == b[..2]
  {
    WithSplits(b[0] - 0xC0, b[1]);
  }

  lemma ThreeBytes(b: seq<byte>)
    requires CharLength(b) == 3
    ensures IsScalar(CharAt(b)) && EncodeChar(CharAt(b)) == b[..3]
  {
    var high := With(b[0] - 0xE0, b[1]);
    WithSplits(b[0] - 0xE0, b[1]);
    WithSplits(high, b[2]);
  }

  lemma FourBytes(b: seq<byte>)
    requires CharLength(b) == 4
    ensures IsScalar(CharAt(b)) && EncodeChar(CharAt(b)) == b[..4]
  {
    var high := With(b[0] - 0xF0, b[1]);
    WithSplits(b[0] - 0xF0, b[1]);
    WithSplits(high, b[2]);
    WithSplits(With(high, b[2]), b[3]);
  }

  lemma RecognisedIsChar(b: seq<byte>)
    requires CharLength(b) > 0
    ensures IsScalar(CharAt(b)) && EncodeChar(CharAt(b)) == b[..CharLength(b)]
  {
    if CharLength(b) == 2 {
      TwoBytes(b);
    } else if CharLength(b) == 3 {
      ThreeBytes(b);
    } else if CharLength(b) == 4 {
      FourBytes(b);
    }
  }

  lemma {:induction false} TextIsRecognised(cs: seq<nat>)
    requires AllScalars(cs)
    ensures IsUtf8(EncodeText(cs))
  {
    if cs != [] {
      var first, others := EncodeChar(cs[0]), EncodeText(cs[1..]);
      CharIsRecognised(cs[0], others);
      TextIsRecognised(cs[1..]);
      assert (first + others)[|first|..] == others;
    }
  }

  lemma {:induction false} RecognisedIsText(b: seq<byte>) returns (cs: seq<nat>)
    requires IsUtf8(b)
    ensures AllScalars(cs) && EncodeText(cs) == b
    decreases |b|
  {
    if b == [] {
      cs := [];
    } else {
      var k := CharLength(b);
      RecognisedIsChar(b);
      var more := RecognisedIsText(b[k..]);
      cs := [CharAt(b)] + more;
      assert cs[1..] == more;
      assert b[..k] + b[k..] == b;
    }
  }

  ghost predicate IsText(b: seq<byte>) {
    exists cs :: AllScalars(cs) && EncodeText(cs) == b
  }

  /** A decoded string is exactly an encoding of scalar values: no overlong forms, no surrogates. */
  lemma TextExactly(b: seq<byte>)
    ensures IsUtf8(b) <==> IsText(b)
  {
    if IsUtf8(b) {
      var cs := RecognisedIsText(b);
    } else if IsText(b) {
      var cs :| AllScalars(cs) && EncodeText(cs) == b;
      TextIsRecognised(cs);
    }
  }
}
