/**
 * What the bytes of the bridge mean, said without the encoder and the decoder: which
 * bytes stand for a value of a type. Numbers are spelled digit by digit in base 256,
 * negative ones plus 256^width, strings and lists start with a four-byte length, and
 * records are their fields in order.
 *
 * A writer is strict: it writes 1 for true and for a present option. A reader takes
 * any byte but 0, and a length with the sign bit set as an empty list or string.
 */
module SseWire {
  import opened Wrappers
  import opened Bytes
  import opened SseCodec

  /** The byte of weight 256^i. */
  function Digit(e: Endian, b: seq<byte>, i: nat): byte
    requires i < |b|
  {
    if e.Little? then b[i] else b[|b| - 1 - i]
  }

  /** A digit of weight 256^i. */
  function Weighted(digit: byte, i: nat): nat {
    if i == 0 then digit else 256 * Weighted(digit, i - 1)
  }

  /** The `k` lower digits as a number. */
  function Sum(e: Endian, b: seq<byte>, k: nat): nat
    requires k <= |b|
  {
    if k == 0 then 0 else Sum(e, b, k - 1) + Weighted(Digit(e, b, k - 1), k - 1)
  }

  ghost predicate Spells(e: Endian, b: seq<byte>, n: int) {
    n == Sum(e, b, |b|)
  }

  ghost predicate Flag(strict: bool, b: byte, flag: bool) {
    if strict then b == (if flag then 1 else 0) else flag <==> b != 0
  }

  ghost predicate Length(strict: bool, e: Endian, b: seq<byte>, n: nat) {
    && |b| == 4
    && (if !strict && Digit(e, b, 3) >= 0x80 then n == 0 else n < LENGTH_LIMIT && Spells(e, b, n))
  }

  ghost predicate Wire(strict: bool, e: Endian, t: Type, v: Value, b: seq<byte>)
    requires HasType(t, v)
    decreases t, 0
  {
    match t
    case TBool => |b| == 1 && Flag(strict, b[0], v.b)
    case TUnsigned(width) => |b| == width && Spells(e, b, v.n)
    case TSigned(width) => |b| == width && (Spells(e, b, v.n) || Spells(e, b, v.n + Pow256(width)))
    case TFloat => |b| == 8 && Spells(e, b, v.bits)
    case TString => |b| >= 4 && Length(strict, e, b[..4], |v.utf8|) && b[4..] == v.utf8
    case TList(elem) => |b| >= 4 && Length(strict, e, b[..4], |v.items|) && WireItems(strict, e, elem, v.items, b[4..])
    case TOption(elem) =>
      |b| >= 1 && Flag(strict, b[0], v.VSome?) && (if v.VSome? then Wire(strict, e, elem, v.value, b[1..]) else |b| == 1)
    case TStruct(fields) => WireFields(strict, e, fields, v.fields, b)
    case TEnum(_) => |b| == 4 && Spells(e, b, v.tag)
  }

  ghost predicate WireItems(strict: bool, e: Endian, elem: Type, items: seq<Value>, b: seq<byte>)
    requires forall i :: 0 <= i < |items| ==> HasType(elem, items[i])
    decreases elem, |items| + 1
  {
    if items == [] then b == []
    else exists k | 0 <= k <= |b| ::
        Wire(strict, e, elem, items[0], b[..k]) && WireItems(strict, e, elem, items[1..], b[k..])
  }

  ghost predicate WireFields(strict: bool, e: Endian, types: seq<Type>, values: seq<Value>, b: seq<byte>)
    requires |types| == |values| && forall i :: 0 <= i < |types| ==> HasType(types[i], values[i])
    decreases types, 0
  {
    if types == [] then b == []
    else exists k | 0 <= k <= |b| ::
        Wire(strict, e, types[0], values[0], b[..k]) && WireFields(strict, e, types[1..], values[1..], b[k..])
  }

  // Numbers

  lemma {:induction false} LittleOfSum(b: seq<byte>)
    ensures LittleBytes(FromLittle(b), |b|) == b
  {
    if b != [] {
      LittleOfSum(b[1..]);
      assert FromLittle(b) / 256 == FromLittle(b[1..]) && FromLittle(b) % 256 == b[0];
      assert [b[0]] + b[1..] == b;
    }
  }

  lemma {:induction false} SnocLittle(b: seq<byte>, x: byte)
    ensures FromLittle(b + [x]) == FromLittle(b) + Weighted(x, |b|)
  {
    if b == [] {
      assert [x][1..] == [];
    } else {
      assert (b + [x])[1..] == b[1..] + [x];
      SnocLittle(b[1..], x);
    }
  }

  /** The bytes in the order of their weight. */
  function Digits(e: Endian, b: seq<byte>): seq<byte> {
    if e.Little? then b else Reversed(b)
  }

  lemma {:induction false} SumIsLittle(e: Endian, b: seq<byte>, k: nat)
    requires k <= |b|
    ensures Sum(e, b, k) == FromLittle(Digits(e, b)[..k])
  {
    if k > 0 {
      var lower, x := Digits(e, b)[..k - 1], Digit(e, b, k - 1);
      assert Digits(e, b)[..k] == lower + [x];
      SumIsLittle(e, b, k - 1);
      SnocLittle(lower, x);
    }
  }

  /** The number a byte string spells is the one read from it. */
  lemma SpellsRead(e: Endian, b: seq<byte>, n: int)
    ensures Spells(e, b, n) <==> n == FromBytes(e, b)
  {
    SumIsLittle(e, b, |b|);
    assert Digits(e, b)[..|b|] == Digits(e, b);
  }

  lemma ReadThenWrite(e: Endian, b: seq<byte>)
    ensures ToBytes(e, FromBytes(e, b), |b|) == b
  {
    LittleOfSum(Digits(e, b));
    assert Reversed(Reversed(b)) == b;
  }

  /** Only the encoder's bytes spell a number. */
  lemma SpellsExactly(e: Endian, b: seq<byte>, n: nat)
    requires n < Pow256(|b|)
    ensures Spells(e, b, n) <==> b == ToBytes(e, n, |b|)
  {
    SpellsRead(e, b, n);
    ReadThenWrite(e, b);
    BytesRoundTrip(e, n, |b|);
  }

  /** Of the two numbers that a signed one may be spelled as, only one is in range. */
  lemma OneSpelling(e: Endian, b: seq<byte>, n: int)
    ensures n < 0 ==> !Spells(e, b, n)
    ensures n >= 0 ==> !Spells(e, b, n + Pow256(|b|))
  {
    SpellsRead(e, b, n + Pow256(|b|));
    FromBytesBound(e, b);
  }

  lemma SpelledIn(e: Endian, b: seq<byte>, n: nat, width: nat)
    requires n < Pow256(width)
    ensures |b| == width && Spells(e, b, n) <==> b == ToBytes(e, n, width)
  {
    if |b| == width {
      SpellsExactly(e, b, n);
    }
  }

  lemma SignedSpelling(e: Endian, b: seq<byte>, n: int)
    ensures Spells(e, b, n) || Spells(e, b, n + Pow256(|b|)) <==> Spells(e, b, if n < 0 then n + Pow256(|b|) else n)
  {
    OneSpelling(e, b, n);
  }

  lemma TopDigit(e: Endian, b: seq<byte>)
    requires |b| == 4
    ensures Digit(e, b, 3) >= 0x80 <==> FromBytes(e, b) >= LENGTH_LIMIT
  {
    var low := Digits(e, b)[..3];
    Pow256Values();
    assert Pow256(3) == 0x100_0000;
    SnocLittle(low, Digit(e, b, 3));
    var top: int := Digit(e, b, 3);
    assert Weighted(top, 1) == 256 * top;
    assert Weighted(top, 2) == 0x1_0000 * top;
    FromLittleBound(low);
    assert low + [Digit(e, b, 3)] == Digits(e, b);
  }

  lemma SmallFitsFour(n: nat)
    requires n < LENGTH_LIMIT
    ensures n < Pow256(4) && n % WORD == n
  {
    Pow256Values();
  }

  lemma LengthExactly(e: Endian, b: seq<byte>, n: nat)
    requires n < LENGTH_LIMIT
    ensures Length(true, e, b, n) <==> b == EncodeLength(e, n)
  {
    SmallFitsFour(n);
    SpelledIn(e, b, n, 4);
  }

  lemma LengthRead(e: Endian, data: seq<byte>, n: nat)
    requires |data| >= 4
    ensures Length(false, e, data[..4], n) <==> DecodeLength(e, data) == Some((n, data[4..]))
  {
    var b := data[..4];
    var m := FromBytes(e, b);
    TopDigit(e, b);
    SpellsRead(e, b, m);
    SpellsRead(e, b, n);
  }

  // The writer

  lemma SignedWire(e: Endian, width: nat, v: Value, raw: nat, b: seq<byte>)
    requires HasType(TSigned(width), v) && raw == Unsigned(v.n, width)
    ensures Wire(true, e, TSigned(width), v, b) <==> |b| == width && Spells(e, b, raw)
  {
    if |b| == width {
      SignedSpelling(e, b, v.n);
    }
  }

  lemma SignedExactly(e: Endian, width: nat, v: Value, b: seq<byte>)
    requires HasType(TSigned(width), v)
    ensures Wire(true, e, TSigned(width), v, b) <==> b == Encode(e, TSigned(width), v)
  {
    SignedWire(e, width, v, Unsigned(v.n, width), b);
    SpelledIn(e, b, Unsigned(v.n, width), width);
  }

  lemma NumberExactly(e: Endian, t: Type, v: Value, b: seq<byte>)
    requires HasType(t, v) && (t.TUnsigned? || t.TFloat? || t.TEnum?)
    ensures Wire(true, e, t, v, b) <==> b == Encode(e, t, v)
  {
    match t
    case TUnsigned(width) => SpelledIn(e, b, v.n, width);
    case TFloat => SpelledIn(e, b, v.bits, 8);
    case TEnum(_) =>
      SmallFitsFour(v.tag);
      SpelledIn(e, b, v.tag, 4);
  }

  lemma Cut(b: seq<byte>, x: seq<byte>, y: seq<byte>)
    ensures b == x + y <==> |b| >= |x| && b[..|x|] == x && b[|x|..] == y
  {
    if |b| >= |x| {
      assert b == b[..|x|] + b[|x|..];
    }
  }

  /** The bytes written for a value are the one strict form of it. */
  lemma {:induction false} EncodesExactly(e: Endian, t: Type, v: Value, b: seq<byte>)
    requires HasType(t, v) && Fits(v)
    ensures Wire(true, e, t, v, b) <==> b == Encode(e, t, v)
    decreases t, 0
  {
    match t
    case TBool =>
    case TUnsigned(_) | TFloat | TEnum(_) => NumberExactly(e, t, v, b);
    case TSigned(width) => SignedExactly(e, width, v, b);
    case TString =>
      Cut(b, EncodeLength(e, |v.utf8|), v.utf8);
      if |b| >= 4 {
        LengthExactly(e, b[..4], |v.utf8|);
      }
    case TList(elem) =>
      Cut(b, EncodeLength(e, |v.items|), EncodeItems(e, elem, v.items));
      if |b| >= 4 {
        LengthExactly(e, b[..4], |v.items|);
        ItemsWritten(e, elem, v.items);
        if WireItems(true, e, elem, v.items, b[4..]) {
          OnlyItemsWritten(e, elem, v.items, b[4..]);
        }
      }
    case TOption(elem) =>
      if v.VSome? && |b| >= 1 {
        Cut(b, [1], Encode(e, elem, v.value));
        EncodesExactly(e, elem, v.value, b[1..]);
      }
    case TStruct(fields) => FieldsEncodeExactly(e, fields, v.fields, b);
  }

  lemma JoinItems(strict: bool, e: Endian, elem: Type, items: seq<Value>, b: seq<byte>, c: seq<byte>)
    requires items != [] && forall i :: 0 <= i < |items| ==> HasType(elem, items[i])
    requires Wire(strict, e, elem, items[0], b) && WireItems(strict, e, elem, items[1..], c)
    ensures WireItems(strict, e, elem, items, b + c)
  {
    var k := |b|;
    assert (b + c)[..k] == b && (b + c)[k..] == c;
  }

  lemma SplitItems(strict: bool, e: Endian, elem: Type, items: seq<Value>, b: seq<byte>) returns (k: nat)
    requires items != [] && forall i :: 0 <= i < |items| ==> HasType(elem, items[i])
    requires WireItems(strict, e, elem, items, b)
    ensures k <= |b| && Wire(strict, e, elem, items[0], b[..k]) && WireItems(strict, e, elem, items[1..], b[k..])
  {
    k :| 0 <= k <= |b| && Wire(strict, e, elem, items[0], b[..k]) && WireItems(strict, e, elem, items[1..], b[k..]);
  }

  lemma EncodeItemsStep(e: Endian, elem: Type, items: seq<Value>)
    requires items != [] && forall i :: 0 <= i < |items| ==> HasType(elem, items[i])
    ensures EncodeItems(e, elem, items) == Encode(e, elem, items[0]) + EncodeItems(e, elem, items[1..])
  {
  }

  lemma {:induction false} ItemsWritten(e: Endian, elem: Type, items: seq<Value>)
    requires forall i :: 0 <= i < |items| ==> HasType(elem, items[i]) && Fits(items[i])
    ensures WireItems(true, e, elem, items, EncodeItems(e, elem, items))
    decreases elem, |items| + 1
  {
    if items != [] {
      EncodesExactly(e, elem, items[0], Encode(e, elem, items[0]));
      ItemsWritten(e, elem, items[1..]);
      EncodeItemsStep(e, elem, items);
      JoinItems(true, e, elem, items, Encode(e, elem, items[0]), EncodeItems(e, elem, items[1..]));
    }
  }

  lemma {:induction false} FirstItemWritten(e: Endian, elem: Type, items: seq<Value>, b: seq<byte>) returns (k: nat)
    requires items != [] && forall i :: 0 <= i < |items| ==> HasType(elem, items[i]) && Fits(items[i])
    requires WireItems(true, e, elem, items, b)
    ensures k <= |b| && b[..k] == Encode(e, elem, items[0]) && WireItems(true, e, elem, items[1..], b[k..])
    decreases elem, 1
  {
    k := SplitItems(true, e, elem, items, b);
    EncodesExactly(e, elem, items[0], b[..k]);
  }

  lemma JoinEncoded(e: Endian, elem: Type, items: seq<Value>, b: seq<byte>, k: nat)
    requires items != [] && k <= |b| && forall i :: 0 <= i < |items| ==> HasType(elem, items[i])
    requires b[..k] == Encode(e, elem, items[0]) && b[k..] == EncodeItems(e, elem, items[1..])
    ensures b == EncodeItems(e, elem, items)
  {
    EncodeItemsStep(e, elem, items);
    assert b == b[..k] + b[k..];
  }

  lemma {:induction false} OnlyItemsWritten(e: Endian, elem: Type, items: seq<Value>, b: seq<byte>)
    requires forall i :: 0 <= i < |items| ==> HasType(elem, items[i]) && Fits(items[i])
    requires WireItems(true, e, elem, items, b)
    ensures b == EncodeItems(e, elem, items)
    decreases elem, |items| + 1
  {
    if items != [] {
      var k := FirstItemWritten(e, elem, items, b);
      OnlyItemsWritten(e, elem, items[1..], b[k..]);
      JoinEncoded(e, elem, items, b, k);
    }
  }

  lemma {:induction false} FieldsEncodeExactly(e: Endian, types: seq<Type>, values: seq<Value>, b: seq<byte>)
    requires |types| == |values|
    requires forall i :: 0 <= i < |types| ==> HasType(types[i], values[i]) && Fits(values[i])
    ensures WireFields(true, e, types, values, b) <==> b == EncodeFields(e, types, values)
    decreases types, 0
  {
    if types != [] {
      var first, others := Encode(e, types[0], values[0]), EncodeFields(e, types[1..], values[1..]);
      Cut(b, first, others);
      if b == first + others {
        EncodesExactly(e, types[0], values[0], first);
        FieldsEncodeExactly(e, types[1..], values[1..], others);
      } else if WireFields(true, e, types, values, b) {
        var k :|
          0 <= k <= |b| && Wire(true, e, types[0], values[0], b[..k]) && WireFields(true, e, types[1..], values[1..], b[k..]);
        EncodesExactly(e, types[0], values[0], b[..k]);
        FieldsEncodeExactly(e, types[1..], values[1..], b[k..]);
      }
    }
  }

  // The reader

  lemma OneEnd(data: seq<byte>, i: nat, k: nat)
    requires i <= |data| && k <= |data|
    ensures data[i..] == data[k..] <==> i == k
  {
    assert |data[i..]| == |data| - i && |data[k..]| == |data| - k;
  }

  lemma UnsignedRead(e: Endian, width: nat, data: seq<byte>, n: nat, k: nat)
    requires k <= |data|
    ensures k == width && Spells(e, data[..k], n) <==> DecodeUnsigned(e, width, data) == Some((n, data[k..]))
  {
    if width <= |data| {
      OneEnd(data, width, k);
      SpellsRead(e, data[..width], n);
    }
  }

  lemma SignedRead(e: Endian, width: nat, v: Value, data: seq<byte>, k: nat)
    requires HasType(TSigned(width), v) && k <= |data|
    ensures Wire(false, e, TSigned(width), v, data[..k]) <==> Decode(e, TSigned(width), data) == Some((v, data[k..]))
  {
    if width <= |data| {
      OneEnd(data, width, k);
      var b := data[..width];
      FromBytesBound(e, b);
      SpellsRead(e, b, v.n);
      SpellsRead(e, b, v.n + Pow256(width));
    }
  }

  lemma NumberRead(e: Endian, t: Type, v: Value, data: seq<byte>, k: nat)
    requires HasType(t, v) && k <= |data| && (t.TUnsigned? || t.TSigned? || t.TFloat? || t.TEnum?)
    ensures Wire(false, e, t, v, data[..k]) <==> Decode(e, t, data) == Some((v, data[k..]))
  {
    match t
    case TUnsigned(width) => UnsignedRead(e, width, data, v.n, k);
    case TSigned(width) => SignedRead(e, width, v, data, k);
    case TFloat => UnsignedRead(e, 8, data, v.bits, k);
    case TEnum(_) => UnsignedRead(e, 4, data, v.tag, k);
  }

  lemma StringRead(e: Endian, v: Value, data: seq<byte>, k: nat)
    requires HasType(TString, v) && k <= |data|
    ensures Wire(false, e, TString, v, data[..k]) <==> Decode(e, TString, data) == Some((v, data[k..]))
  {
    var n := |v.utf8|;
    if |data| >= 4 {
      LengthRead(e, data, n);
      if 4 + n <= |data| {
        OneEnd(data, 4 + n, k);
      }
      if k == 4 + n {
        assert data[..k][..4] == data[..4] && data[..k][4..] == data[4..][..n] && data[4..][n..] == data[k..];
      }
    }
  }

  ghost predicate Ends(rest: seq<byte>, data: seq<byte>) {
    |rest| <= |data| && rest == data[|data| - |rest|..]
  }

  lemma EndsTwice(c: seq<byte>, b: seq<byte>, a: seq<byte>)
    requires Ends(c, b) && Ends(b, a)
    ensures Ends(c, a)
  {
  }

  lemma StringLeavesTheEnd(e: Endian, data: seq<byte>)
    ensures Decode(e, TString, data).Some? ==> Ends(Decode(e, TString, data).value.1, data)
  {
    if Decode(e, TString, data).Some? {
      var n := DecodeLength(e, data).value.0;
      assert data[4..][n..] == data[4 + n..];
    }
  }

  lemma UnsignedLeavesTheEnd(e: Endian, width: nat, data: seq<byte>)
    ensures DecodeUnsigned(e, width, data).Some? ==> Ends(DecodeUnsigned(e, width, data).value.1, data)
  {
  }

  lemma NumberLeavesTheEnd(e: Endian, t: Type, data: seq<byte>)
    requires t.TBool? || t.TUnsigned? || t.TSigned? || t.TFloat? || t.TEnum?
    ensures Decode(e, t, data).Some? ==> Ends(Decode(e, t, data).value.1, data)
  {
    match t
    case TBool =>
    case TUnsigned(width) => UnsignedLeavesTheEnd(e, width, data);
    case TSigned(width) => UnsignedLeavesTheEnd(e, width, data);
    case TFloat => UnsignedLeavesTheEnd(e, 8, data);
    case TEnum(_) => UnsignedLeavesTheEnd(e, 4, data);
  }

  /** A reader consumes from the front. */
  lemma {:induction false} LeavesTheEnd(e: Endian, t: Type, data: seq<byte>)
    ensures Decode(e, t, data).Some? ==> Ends(Decode(e, t, data).value.1, data)
    decreases t, 0
  {
    match t
    case TBool | TUnsigned(_) | TSigned(_) | TFloat | TEnum(_) => NumberLeavesTheEnd(e, t, data);
    case TString => StringLeavesTheEnd(e, data);
    case TList(elem) => ListLeavesTheEnd(e, elem, data);
    case TOption(elem) => OptionLeavesTheEnd(e, elem, data);
    case TStruct(fields) => FieldsLeaveTheEnd(e, fields, data);
  }

  lemma {:induction false} OptionLeavesTheEnd(e: Endian, elem: Type, data: seq<byte>)
    ensures Decode(e, TOption(elem), data).Some? ==> Ends(Decode(e, TOption(elem), data).value.1, data)
    decreases elem, 1
  {
    if Decode(e, TOption(elem), data).Some? {
      LeavesTheEnd(e, elem, data[1..]);
      EndsTwice(Decode(e, TOption(elem), data).value.1, data[1..], data);
    }
  }

  lemma {:induction false} ListLeavesTheEnd(e: Endian, elem: Type, data: seq<byte>)
    ensures Decode(e, TList(elem), data).Some? ==> Ends(Decode(e, TList(elem), data).value.1, data)
    decreases elem, LENGTH_LIMIT + 1
  {
    if Decode(e, TList(elem), data).Some? {
      ItemsLeaveTheEnd(e, elem, DecodeLength(e, data).value.0, data[4..]);
      EndsTwice(Decode(e, TList(elem), data).value.1, data[4..], data);
    }
  }

  lemma {:induction false} ItemsLeaveTheEnd(e: Endian, elem: Type, n: nat, data: seq<byte>)
    ensures DecodeItems(e, elem, n, data).Some? ==> Ends(DecodeItems(e, elem, n, data).value.1, data)
    decreases elem, n + 1
  {
    if n > 0 && DecodeItems(e, elem, n, data).Some? {
      LeavesTheEnd(e, elem, data);
      var rest := Decode(e, elem, data).value.1;
      ItemsLeaveTheEnd(e, elem, n - 1, rest);
      EndsTwice(DecodeItems(e, elem, n, data).value.1, rest, data);
    }
  }

  lemma {:induction false} FieldsLeaveTheEnd(e: Endian, types: seq<Type>, data: seq<byte>)
    ensures DecodeFields(e, types, data).Some? ==> Ends(DecodeFields(e, types, data).value.1, data)
    decreases types, 0
  {
    if types != [] && DecodeFields(e, types, data).Some? {
      LeavesTheEnd(e, types[0], data);
      var rest := Decode(e, types[0], data).value.1;
      FieldsLeaveTheEnd(e, types[1..], rest);
      EndsTwice(DecodeFields(e, types, data).value.1, rest, data);
    }
  }

  lemma Slices(data: seq<byte>, j: nat, k: nat)
    requires j <= k <= |data|
    ensures data[..k][..j] == data[..j] && data[..k][j..] == data[j..][..k - j] && data[j..][k - j..] == data[k..]
  {
  }

  /**
   * The first `k` bytes are a form of the value exactly when the reader returns the
   * value and leaves what follows them.
   */
  lemma {:induction false} DecodesExactly(e: Endian, t: Type, v: Value, data: seq<byte>, k: nat)
    requires HasType(t, v) && k <= |data|
    ensures Wire(false, e, t, v, data[..k]) <==> Decode(e, t, data) == Some((v, data[k..]))
    decreases t, 0
  {
    match t
    case TBool =>
      if |data| > 0 {
        OneEnd(data, 1, k);
      }
    case TUnsigned(_) | TSigned(_) | TFloat | TEnum(_) => NumberRead(e, t, v, data, k);
    case TString => StringRead(e, v, data, k);
    case TList(elem) => ListRead(e, elem, v, data, k);
    case TOption(elem) => if v.VNone? { NoneRead(e, elem, data, k); } else { SomeRead(e, elem, v.value, data, k); }
    case TStruct(fields) => FieldsRead(e, fields, v.fields, data, k);
  }

  lemma NoneRead(e: Endian, elem: Type, data: seq<byte>, k: nat)
    requires k <= |data|
    ensures Wire(false, e, TOption(elem), VNone, data[..k]) <==> Decode(e, TOption(elem), data) == Some((VNone, data[k..]))
  {
    if |data| > 0 {
      OneEnd(data, 1, k);
    }
  }

  lemma SomeAfterTag(e: Endian, elem: Type, v: Value, data: seq<byte>, rest: seq<byte>)
    requires |data| > 0
    ensures Decode(e, TOption(elem), data) == Some((VSome(v), rest)) <==>
            data[0] != 0 && Decode(e, elem, data[1..]) == Some((v, rest))
  {
  }

  lemma {:induction false} SomeRead(e: Endian, elem: Type, v: Value, data: seq<byte>, k: nat)
    requires HasType(elem, v) && k <= |data|
    ensures Wire(false, e, TOption(elem), VSome(v), data[..k]) <==>
            Decode(e, TOption(elem), data) == Some((VSome(v), data[k..]))
    decreases elem, 1
  {
    if |data| > 0 {
      SomeAfterTag(e, elem, v, data, data[k..]);
      if k > 0 {
        Slices(data, 1, k);
        DecodesExactly(e, elem, v, data[1..], k - 1);
      } else {
        LeavesTheEnd(e, elem, data[1..]);
      }
    }
  }

  /** What the list reader returns, by what it reads after the length. */
  lemma ListAfterLength(e: Endian, elem: Type, v: Value, data: seq<byte>, rest: seq<byte>)
    requires HasType(TList(elem), v) && |data| >= 4
    ensures Decode(e, TList(elem), data) == Some((v, rest)) <==>
            && Length(false, e, data[..4], |v.items|)
            && DecodeItems(e, elem, |v.items|, data[4..]) == Some((v.items, rest))
  {
    LengthRead(e, data, |v.items|);
    DecodeItemsLength(e, elem, DecodeLength(e, data).value.0, data[4..]);
  }

  lemma {:induction false} ListRead(e: Endian, elem: Type, v: Value, data: seq<byte>, k: nat)
    requires HasType(TList(elem), v) && k <= |data|
    ensures Wire(false, e, TList(elem), v, data[..k]) <==> Decode(e, TList(elem), data) == Some((v, data[k..]))
    decreases elem, 2 * |v.items| + 3
  {
    if |data| >= 4 {
      ListAfterLength(e, elem, v, data, data[k..]);
      if k >= 4 {
        Slices(data, 4, k);
        ItemsRead(e, elem, v.items, data[4..], k - 4);
      } else {
        ItemsLeaveTheEnd(e, elem, |v.items|, data[4..]);
      }
    }
  }

  lemma {:induction false} ItemsRead(e: Endian, elem: Type, items: seq<Value>, data: seq<byte>, k: nat)
    requires k <= |data| && forall i :: 0 <= i < |items| ==> HasType(elem, items[i])
    ensures WireItems(false, e, elem, items, data[..k]) <==> DecodeItems(e, elem, |items|, data) == Some((items, data[k..]))
    decreases elem, 2 * |items| + 2
  {
    if items == [] {
      OneEnd(data, 0, k);
    } else {
      if WireItems(false, e, elem, items, data[..k]) {
        ItemsAreRead(e, elem, items, data, k);
      }
      if DecodeItems(e, elem, |items|, data) == Some((items, data[k..])) {
        ReadItemsAreWire(e, elem, items, data, k);
      }
    }
  }

  lemma ItemsReadStep(e: Endian, elem: Type, items: seq<Value>, data: seq<byte>, j: nat, k: nat)
    requires j <= k <= |data| && items != [] && Decode(e, elem, data) == Some((items[0], data[j..]))
    requires DecodeItems(e, elem, |items| - 1, data[j..]) == Some((items[1..], data[k..]))
    ensures DecodeItems(e, elem, |items|, data) == Some((items, data[k..]))
  {
    DecodeItemsStep(e, elem, |items|, data, items[0], data[j..]);
    PrependOne(items, data[k..]);
  }

  lemma {:induction false} FirstItemIsRead(e: Endian, elem: Type, items: seq<Value>, data: seq<byte>, k: nat)
    returns (j: nat)
    requires k <= |data| && items != [] && forall i :: 0 <= i < |items| ==> HasType(elem, items[i])
    requires WireItems(false, e, elem, items, data[..k])
    ensures j <= k && Decode(e, elem, data) == Some((items[0], data[j..]))
    ensures WireItems(false, e, elem, items[1..], data[j..][..k - j])
    decreases elem, 1
  {
    j := SplitItems(false, e, elem, items, data[..k]);
    Slices(data, j, k);
    DecodesExactly(e, elem, items[0], data, j);
  }

  lemma {:induction false} ItemsAreRead(e: Endian, elem: Type, items: seq<Value>, data: seq<byte>, k: nat)
    requires k <= |data| && items != [] && forall i :: 0 <= i < |items| ==> HasType(elem, items[i])
    requires WireItems(false, e, elem, items, data[..k])
    ensures DecodeItems(e, elem, |items|, data) == Some((items, data[k..]))
    decreases elem, 2 * |items| + 1
  {
    var j := FirstItemIsRead(e, elem, items, data, k);
    Slices(data, j, k);
    ItemsRead(e, elem, items[1..], data[j..], k - j);
    ItemsReadStep(e, elem, items, data, j, k);
  }

  lemma DecodedEnds(e: Endian, elem: Type, n: nat, data: seq<byte>)
    requires n > 0 && DecodeItems(e, elem, n, data).Some?
    ensures Decode(e, elem, data).Some? && Ends(Decode(e, elem, data).value.1, data)
    ensures |DecodeItems(e, elem, n, data).value.1| <= |Decode(e, elem, data).value.1|
  {
    LeavesTheEnd(e, elem, data);
    ItemsLeaveTheEnd(e, elem, n - 1, Decode(e, elem, data).value.1);
  }

  lemma DecodedRest(e: Endian, elem: Type, items: seq<Value>, data: seq<byte>, rest: seq<byte>, end: seq<byte>)
    requires items != [] && Decode(e, elem, data) == Some((items[0], rest))
    requires DecodeItems(e, elem, |items|, data) == Some((items, end))
    ensures DecodeItems(e, elem, |items| - 1, rest) == Some((items[1..], end))
  {
    DecodedSplit(e, elem, |items|, data, items);
    DecodeItemsStep(e, elem, |items|, data, items[0], rest);
  }

  lemma FirstItemRead(e: Endian, elem: Type, items: seq<Value>, data: seq<byte>, end: seq<byte>) returns (j: nat)
    requires items != [] && DecodeItems(e, elem, |items|, data) == Some((items, end))
    ensures j + |end| <= |data| && Decode(e, elem, data) == Some((items[0], data[j..]))
    ensures DecodeItems(e, elem, |items| - 1, data[j..]) == Some((items[1..], end))
  {
    DecodedSplit(e, elem, |items|, data, items);
    DecodedEnds(e, elem, |items|, data);
    var rest := Decode(e, elem, data).value.1;
    DecodedRest(e, elem, items, data, rest, end);
    j := |data| - |rest|;
  }

  lemma JoinRead(e: Endian, elem: Type, items: seq<Value>, data: seq<byte>, j: nat, k: nat)
    requires j <= k <= |data| && items != [] && forall i :: 0 <= i < |items| ==> HasType(elem, items[i])
    requires Wire(false, e, elem, items[0], data[..j]) && WireItems(false, e, elem, items[1..], data[j..][..k - j])
    ensures WireItems(false, e, elem, items, data[..k])
  {
    JoinItems(false, e, elem, items, data[..j], data[j..][..k - j]);
    assert data[..j] + data[j..][..k - j] == data[..k];
  }

  lemma {:induction false} ReadItemsAreWire(e: Endian, elem: Type, items: seq<Value>, data: seq<byte>, k: nat)
    requires k <= |data| && items != [] && forall i :: 0 <= i < |items| ==> HasType(elem, items[i])
    requires DecodeItems(e, elem, |items|, data) == Some((items, data[k..]))
    ensures WireItems(false, e, elem, items, data[..k])
    decreases elem, 2 * |items| + 1
  {
    var j := FirstItemRead(e, elem, items, data, data[k..]);
    Slices(data, j, k);
    DecodesExactly(e, elem, items[0], data, j);
    ItemsRead(e, elem, items[1..], data[j..], k - j);
    JoinRead(e, elem, items, data, j, k);
  }

  lemma {:induction false} FieldsRead(e: Endian, types: seq<Type>, values: seq<Value>, data: seq<byte>, k: nat)
    requires k <= |data|
    requires |types| == |values| && forall i :: 0 <= i < |types| ==> HasType(types[i], values[i])
    ensures WireFields(false, e, types, values, data[..k]) <==> DecodeFields(e, types, data) == Some((values, data[k..]))
    decreases types, 1
  {
    if types == [] {
      OneEnd(data, 0, k);
    } else {
      if WireFields(false, e, types, values, data[..k]) {
        FieldsAreRead(e, types, values, data, k);
      }
      if DecodeFields(e, types, data) == Some((values, data[k..])) {
        ReadFieldsAreWire(e, types, values, data, k);
      }
    }
  }

  lemma {:induction false} FieldsAreRead(e: Endian, types: seq<Type>, values: seq<Value>, data: seq<byte>, k: nat)
    requires k <= |data| && types != []
    requires |types| == |values| && forall i :: 0 <= i < |types| ==> HasType(types[i], values[i])
    requires WireFields(false, e, types, values, data[..k])
    ensures DecodeFields(e, types, data) == Some((values, data[k..]))
    decreases types, 0
  {
    var b := data[..k];
    var j :| 0 <= j <= |b| && Wire(false, e, types[0], values[0], b[..j]) && WireFields(false, e, types[1..], values[1..], b[j..]);
    Slices(data, j, k);
    DecodesExactly(e, types[0], values[0], data, j);
    FieldsRead(e, types[1..], values[1..], data[j..], k - j);
    PrependOne(values, data[k..]);
  }

  lemma {:induction false} ReadFieldsAreWire(e: Endian, types: seq<Type>, values: seq<Value>, data: seq<byte>, k: nat)
    requires k <= |data| && types != []
    requires |types| == |values| && forall i :: 0 <= i < |types| ==> HasType(types[i], values[i])
    requires DecodeFields(e, types, data) == Some((values, data[k..]))
    ensures WireFields(false, e, types, values, data[..k])
    decreases types, 0
  {
    LeavesTheEnd(e, types[0], data);
    var (v, rest) := Decode(e, types[0], data).value;
    FieldsLeaveTheEnd(e, types[1..], rest);
    var more := DecodeFields(e, types[1..], rest).value.0;
    assert values == [v] + more;
    assert values[0] == v && values[1..] == more;
    var j := |data| - |rest|;
    Slices(data, j, k);
    DecodesExactly(e, types[0], values[0], data, j);
    FieldsRead(e, types[1..], values[1..], data[j..], k - j);
  }

  /** Whatever is read, its bytes are a form of it. */
  lemma ReadIsWire(e: Endian, t: Type, data: seq<byte>)
    requires Decode(e, t, data).Some?
    ensures var (v, rest) := Decode(e, t, data).value;
            HasType(t, v) && Ends(rest, data) && Wire(false, e, t, v, data[..|data| - |rest|])
  {
    var (v, rest) := Decode(e, t, data).value;
    DecodeIsTyped(e, t, data);
    LeavesTheEnd(e, t, data);
    DecodesExactly(e, t, v, data, |data| - |rest|);
  }

  /** The bytes start with a form of some value. */
  ghost predicate Readable(e: Endian, t: Type, data: seq<byte>) {
    exists v, k :: HasType(t, v) && 0 <= k <= |data| && Wire(false, e, t, v, data[..k])
  }

  /** A reader fails exactly on bytes that start with no form of any value. */
  lemma ReadableExactly(e: Endian, t: Type, data: seq<byte>)
    ensures Decode(e, t, data).Some? <==> Readable(e, t, data)
  {
    if Decode(e, t, data).Some? {
      ReadIsWire(e, t, data);
      var (v, rest) := Decode(e, t, data).value;
      var k := |data| - |rest|;
      assert Wire(false, e, t, v, data[..k]);
    } else if Readable(e, t, data) {
      var v, k :| HasType(t, v) && 0 <= k <= |data| && Wire(false, e, t, v, data[..k]);
      DecodesExactly(e, t, v, data, k);
    }
  }
}
