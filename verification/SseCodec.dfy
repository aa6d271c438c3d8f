/**
 * The wire codec between Rust and Dart. Every message type is built from a few
 * shapes, so the codec is written once over type descriptors: a value of type
 * `t` is encoded by `Encode(t, v)` and read back by `Decode(t, bytes)`, and the
 * generated per-type encoders are the descriptors of `SseMessages`.
 *
 * `NativeEndian` is a parameter. A decoder that panics returns None.
 */
module SseCodec {
  import opened Wrappers
  import opened Bytes

  datatype Type =
    | TBool
    | TUnsigned(width: nat)
    | TSigned(width: nat)
    | TFloat
    | TString
    | TList(elem: Type)
    | TOption(elem: Type)
    | TStruct(fields: seq<Type>)
    | TEnum(count: nat)

  /** A double is its 64-bit pattern and a string its UTF-8 bytes. */
  datatype Value =
    | VBool(b: bool)
    | VInt(n: int)
    | VFloat(bits: nat)
    | VString(utf8: seq<byte>)
    | VList(items: seq<Value>)
    | VNone
    | VSome(value: Value)
    | VStruct(fields: seq<Value>)
    | VEnum(tag: nat)

  /** The first list length that `len() as i32` does not represent. */
  const LENGTH_LIMIT := 0x8000_0000
  const WORD := 0x1_0000_0000

  predicate Tail(b: byte) {
    0x80 <= b <= 0xBF
  }

  /** The number of bytes of the well-formed UTF-8 character the bytes start with, 0 if there is none. */
  function CharLength(b: seq<byte>): (n: nat)
    ensures n <= |b|
  {
    if |b| >= 1 && b[0] < 0x80 then 1
    else if |b| >= 2 && 0xC2 <= b[0] <= 0xDF && Tail(b[1]) then 2
    else if |b| >= 3 && Tail(b[2]) && Tail(b[1]) && 0xE0 <= b[0] <= 0xEF
            && (b[0] == 0xE0 ==> b[1] >= 0xA0) && (b[0] == 0xED ==> b[1] <= 0x9F) then 3
    else if |b| >= 4 && Tail(b[3]) && Tail(b[2]) && Tail(b[1]) && 0xF0 <= b[0] <= 0xF4
            && (b[0] == 0xF0 ==> b[1] >= 0x90) && (b[0] == 0xF4 ==> b[1] <= 0x8F) then 4
    else 0
  }

  predicate IsUtf8(b: seq<byte>)
    decreases |b|
  {
    b == [] || (CharLength(b) > 0 && IsUtf8(b[CharLength(b)..]))
  }

  predicate HasType(t: Type, v: Value)
    decreases t
  {
    match t
    case TBool => v.VBool?
    case TUnsigned(width) => v.VInt? && 0 <= v.n < Pow256(width)
    case TSigned(width) => v.VInt? && 0 <= 2 * v.n + Pow256(width) < 2 * Pow256(width)
    case TFloat => v.VFloat? && v.bits < Pow256(8)
    case TString => v.VString? && IsUtf8(v.utf8)
    case TList(elem) => v.VList? && forall i :: 0 <= i < |v.items| ==> HasType(elem, v.items[i])
    case TOption(elem) => v.VNone? || (v.VSome? && HasType(elem, v.value))
    case TStruct(fields) =>
      && v.VStruct? && |v.fields| == |fields|
      && forall i :: 0 <= i < |fields| ==> HasType(fields[i], v.fields[i])
    case TEnum(count) => v.VEnum? && v.tag < count && v.tag < LENGTH_LIMIT
  }

  /** No list or string in the value is too long for its 32-bit length. */
  predicate Fits(v: Value) {
    match v
    case VString(utf8) => |utf8| < LENGTH_LIMIT
    case VList(items) => |items| < LENGTH_LIMIT && forall i :: 0 <= i < |items| ==> Fits(items[i])
    case VSome(value) => Fits(value)
    case VStruct(fields) => forall i :: 0 <= i < |fields| ==> Fits(fields[i])
    case _ => true
  }

  /** `<i32>::sse_encode(len as _)`: the cast keeps the low 32 bits. */
  function EncodeLength(e: Endian, n: nat): seq<byte> {
    ToBytes(e, n % WORD, 4)
  }

  /** A signed integer as the unsigned one of the same bits. */
  function Unsigned(n: int, width: nat): (r: nat)
    requires 0 <= 2 * n + Pow256(width) < 2 * Pow256(width)
    ensures r < Pow256(width)
  {
    if n < 0 then n + Pow256(width) else n
  }

  function Encode(e: Endian, t: Type, v: Value): seq<byte>
    requires HasType(t, v)
    decreases t, 0
  {
    match t
    case TBool => [if v.b then 1 else 0]
    case TUnsigned(width) => ToBytes(e, v.n, width)
    case TSigned(width) => ToBytes(e, Unsigned(v.n, width), width)
    case TFloat => ToBytes(e, v.bits, 8)
    case TString => EncodeLength(e, |v.utf8|) + v.utf8
    case TList(elem) => EncodeLength(e, |v.items|) + EncodeItems(e, elem, v.items)
    case TOption(elem) => if v.VNone? then [0] else [1] + Encode(e, elem, v.value)
    case TStruct(fields) => EncodeFields(e, fields, v.fields)
    case TEnum(_) => ToBytes(e, v.tag, 4)
  }

  function EncodeItems(e: Endian, elem: Type, items: seq<Value>): seq<byte>
    requires forall i :: 0 <= i < |items| ==> HasType(elem, items[i])
    decreases elem, |items| + 1
  {
    if items == [] then [] else Encode(e, elem, items[0]) + EncodeItems(e, elem, items[1..])
  }

  function EncodeFields(e: Endian, types: seq<Type>, values: seq<Value>): seq<byte>
    requires |types| == |values| && forall i :: 0 <= i < |types| ==> HasType(types[i], values[i])
    decreases types, 0
  {
    if types == [] then [] else Encode(e, types[0], values[0]) + EncodeFields(e, types[1..], values[1..])
  }

  type Decoded<T> = Option<(T, seq<byte>)>

  function Take(n: nat, data: seq<byte>): Decoded<seq<byte>> {
    if |data| < n then None else Some((data[..n], data[n..]))
  }

  function DecodeUnsigned(e: Endian, width: nat, data: seq<byte>): Decoded<nat> {
    match Take(width, data)
    case None => None
    case Some((b, rest)) => Some((FromBytes(e, b), rest))
  }

  /** A length read as i32; `0..len_` is empty when it is negative. */
  function DecodeLength(e: Endian, data: seq<byte>): Decoded<nat> {
    match DecodeUnsigned(e, 4, data)
    case None => None
    case Some((n, rest)) => Some((if n < LENGTH_LIMIT then n else 0, rest))
  }

  function Decode(e: Endian, t: Type, data: seq<byte>): Decoded<Value>
    decreases t, 0
  {
    match t
    case TBool =>
      (match Take(1, data) case None => None case Some((b, rest)) => Some((VBool(b[0] != 0), rest)))
    case TUnsigned(width) =>
      (match DecodeUnsigned(e, width, data) case None => None case Some((n, rest)) => Some((VInt(n), rest)))
    case TSigned(width) =>
      (match DecodeUnsigned(e, width, data)
       case None => None
       case Some((n, rest)) => Some((VInt(if 2 * n < Pow256(width) then n else n - Pow256(width)), rest)))
    case TFloat =>
      (match DecodeUnsigned(e, 8, data) case None => None case Some((n, rest)) => Some((VFloat(n), rest)))
    case TString =>
      (match DecodeLength(e, data)
       case None => None
       case Some((n, rest)) =>
         match Take(n, rest)
         case None => None
         case Some((b, rest')) => if IsUtf8(b) then Some((VString(b), rest')) else None)
    case TList(elem) =>
      (match DecodeLength(e, data)
       case None => None
       case Some((n, rest)) =>
         match DecodeItems(e, elem, n, rest)
         case None => None
         case Some((items, rest')) => Some((VList(items), rest')))
    case TOption(elem) =>
      (match Take(1, data)
       case None => None
       case Some((b, rest)) =>
         if b[0] == 0 then Some((VNone, rest))
         else match Decode(e, elem, rest)
           case None => None
           case Some((v, rest')) => Some((VSome(v), rest')))
    case TStruct(fields) =>
      (match DecodeFields(e, fields, data) case None => None case Some((vs, rest)) => Some((VStruct(vs), rest)))
    case TEnum(count) =>
      (match DecodeUnsigned(e, 4, data)
       case None => None
       case Some((n, rest)) => if n < count && n < LENGTH_LIMIT then Some((VEnum(n), rest)) else None)
  }

  function DecodeItems(e: Endian, elem: Type, n: nat, data: seq<byte>): Decoded<seq<Value>>
    decreases elem, n + 1
  {
    if n == 0 then Some(([], data))
    else match Decode(e, elem, data)
      case None => None
      case Some((v, rest)) => Prepend([v], DecodeItems(e, elem, n - 1, rest))
  }

  function DecodeFields(e: Endian, types: seq<Type>, data: seq<byte>): Decoded<seq<Value>>
    decreases types, 0
  {
    if types == [] then Some(([], data))
    else match Decode(e, types[0], data)
      case None => None
      case Some((v, rest)) => Prepend([v], DecodeFields(e, types[1..], rest))
  }

  function Prepend(vs: seq<Value>, r: Decoded<seq<Value>>): Decoded<seq<Value>> {
    match r
    case None => None
    case Some((more, rest)) => Some((vs + more, rest))
  }

  // ---------------------------------------------------------------- round trip

  lemma UnsignedRoundTrip(e: Endian, n: nat, width: nat, rest: seq<byte>)
    requires n < Pow256(width)
    ensures DecodeUnsigned(e, width, ToBytes(e, n, width) + rest) == Some((n, rest))
  {
    var b := ToBytes(e, n, width);
    assert (b + rest)[..width] == b && (b + rest)[width..] == rest;
    BytesRoundTrip(e, n, width);
  }

  /** A length comes back as itself when it fits, and as something else when it does not. */
  lemma LengthRoundTrip(e: Endian, n: nat, rest: seq<byte>)
    ensures DecodeLength(e, EncodeLength(e, n) + rest).Some?
    ensures DecodeLength(e, EncodeLength(e, n) + rest).value.1 == rest
    ensures DecodeLength(e, EncodeLength(e, n) + rest).value.0 == n <==> n < LENGTH_LIMIT
  {
    Pow256Values();
    UnsignedRoundTrip(e, n % WORD, 4, rest);
  }

  lemma NumberRoundTrip(e: Endian, t: Type, v: Value, rest: seq<byte>)
    requires HasType(t, v) && (t.TUnsigned? || t.TSigned? || t.TFloat? || t.TEnum?)
    ensures Decode(e, t, Encode(e, t, v) + rest) == Some((v, rest))
  {
    Pow256Values();
    match t
    case TUnsigned(width) => UnsignedRoundTrip(e, v.n, width, rest);
    case TSigned(width) => UnsignedRoundTrip(e, Unsigned(v.n, width), width, rest);
    case TFloat => UnsignedRoundTrip(e, v.bits, 8, rest);
    case TEnum(_) => UnsignedRoundTrip(e, v.tag, 4, rest);
  }

  lemma StringRoundTrip(e: Endian, v: Value, rest: seq<byte>)
    requires HasType(TString, v) && Fits(v)
    ensures Decode(e, TString, Encode(e, TString, v) + rest) == Some((v, rest))
  {
    LengthRoundTrip(e, |v.utf8|, v.utf8 + rest);
    assert Encode(e, TString, v) + rest == EncodeLength(e, |v.utf8|) + (v.utf8 + rest);
    assert (v.utf8 + rest)[..|v.utf8|] == v.utf8 && (v.utf8 + rest)[|v.utf8|..] == rest;
  }

  /** A list of readable length is read back as its items are. */
  lemma ListDecodesItems(e: Endian, elem: Type, v: Value, rest: seq<byte>)
    requires HasType(TList(elem), v) && |v.items| < LENGTH_LIMIT
    ensures var r := Decode(e, TList(elem), Encode(e, TList(elem), v) + rest);
            var items := DecodeItems(e, elem, |v.items|, EncodeItems(e, elem, v.items) + rest);
            r == if items.None? then None else Some((VList(items.value.0), items.value.1))
  {
    var length, body := EncodeLength(e, |v.items|), EncodeItems(e, elem, v.items);
    LengthRoundTrip(e, |v.items|, body + rest);
    assert (length + body) + rest == length + (body + rest);
  }

  /** Reading a value back after anything was written behind it gives the value and leaves the rest. */
  lemma {:induction false} RoundTrip(e: Endian, t: Type, v: Value, rest: seq<byte>)
    requires HasType(t, v) && Fits(v)
    ensures Decode(e, t, Encode(e, t, v) + rest) == Some((v, rest))
    decreases t, 0
  {
    match t
    case TBool =>
    case TUnsigned(_) | TSigned(_) | TFloat | TEnum(_) => NumberRoundTrip(e, t, v, rest);
    case TString => StringRoundTrip(e, v, rest);
    case TList(elem) =>
      ItemsRoundTrip(e, elem, v.items, rest);
      ListDecodesItems(e, elem, v, rest);
    case TOption(elem) =>
      if v.VSome? {
        RoundTrip(e, elem, v.value, rest);
        assert (Encode(e, t, v) + rest)[1..] == Encode(e, elem, v.value) + rest;
      } else {
        assert ([0] + rest)[1..] == rest;
      }
    case TStruct(fields) => FieldsRoundTrip(e, fields, v.fields, rest);
  }

  lemma PrependOne(items: seq<Value>, rest: seq<byte>)
    requires items != []
    ensures Prepend([items[0]], Some((items[1..], rest))) == Some((items, rest))
  {
    assert [items[0]] + items[1..] == items;
  }

  lemma DecodeItemsStep(e: Endian, elem: Type, n: nat, data: seq<byte>, v: Value, rest: seq<byte>)
    requires n > 0 && Decode(e, elem, data) == Some((v, rest))
    ensures DecodeItems(e, elem, n, data) == Prepend([v], DecodeItems(e, elem, n - 1, rest))
  {
  }

  lemma {:induction false} ItemsRoundTrip(e: Endian, elem: Type, items: seq<Value>, rest: seq<byte>)
    requires forall i :: 0 <= i < |items| ==> HasType(elem, items[i]) && Fits(items[i])
    ensures DecodeItems(e, elem, |items|, EncodeItems(e, elem, items) + rest) == Some((items, rest))
    decreases elem, |items| + 1
  {
    if items == [] {
      assert [] + rest == rest;
    } else {
      ItemsUnfold(e, elem, items, rest);
      RoundTrip(e, elem, items[0], EncodeItems(e, elem, items[1..]) + rest);
      ItemsRoundTrip(e, elem, items[1..], rest);
      DecodeItemsStep(e, elem, |items|, EncodeItems(e, elem, items) + rest, items[0], EncodeItems(e, elem, items[1..]) + rest);
      PrependOne(items, rest);
    }
  }

  lemma {:induction false} FieldsRoundTrip(e: Endian, types: seq<Type>, values: seq<Value>, rest: seq<byte>)
    requires |types| == |values|
    requires forall i :: 0 <= i < |types| ==> HasType(types[i], values[i]) && Fits(values[i])
    ensures DecodeFields(e, types, EncodeFields(e, types, values) + rest) == Some((values, rest))
    decreases types, 0
  {
    if types == [] {
      assert [] + rest == rest;
    } else {
      var first, others := Encode(e, types[0], values[0]), EncodeFields(e, types[1..], values[1..]);
      assert (first + others) + rest == first + (others + rest);
      RoundTrip(e, types[0], values[0], others + rest);
      FieldsRoundTrip(e, types[1..], values[1..], rest);
      assert [values[0]] + values[1..] == values;
    }
  }

  // ------------------------------------------------- exactly when it comes back

  lemma {:induction false} DecodeItemsLength(e: Endian, elem: Type, n: nat, data: seq<byte>)
    ensures DecodeItems(e, elem, n, data).Some? ==> |DecodeItems(e, elem, n, data).value.0| == n
    decreases n
  {
    if n > 0 && Decode(e, elem, data).Some? {
      DecodeItemsLength(e, elem, n - 1, Decode(e, elem, data).value.1);
    }
  }

  /** A list whose length field cannot hold its length is read back with another length. */
  lemma TooLongListIsLost(e: Endian, elem: Type, v: Value, rest: seq<byte>)
    requires HasType(TList(elem), v) && |v.items| >= LENGTH_LIMIT
    ensures var r := Decode(e, TList(elem), Encode(e, TList(elem), v) + rest); r.Some? ==> r.value.0 != v
  {
    var length, body := EncodeLength(e, |v.items|), EncodeItems(e, elem, v.items);
    LengthRoundTrip(e, |v.items|, body + rest);
    assert (length + body) + rest == length + (body + rest);
    DecodeItemsLength(e, elem, DecodeLength(e, length + (body + rest)).value.0, body + rest);
  }

  lemma TooLongStringIsLost(e: Endian, v: Value, rest: seq<byte>)
    requires HasType(TString, v) && !Fits(v)
    ensures var r := Decode(e, TString, Encode(e, TString, v) + rest); r.Some? ==> r.value.0 != v
  {
    LengthRoundTrip(e, |v.utf8|, v.utf8 + rest);
    assert (EncodeLength(e, |v.utf8|) + v.utf8) + rest == EncodeLength(e, |v.utf8|) + (v.utf8 + rest);
  }

  /** A value holding a list or string that is too long never comes back, whatever follows it. */
  lemma {:induction false} TooLongIsLost(e: Endian, t: Type, v: Value, rest: seq<byte>)
    requires HasType(t, v) && !Fits(v)
    ensures Decode(e, t, Encode(e, t, v) + rest).Some? ==> Decode(e, t, Encode(e, t, v) + rest).value.0 != v
    decreases t, 0
  {
    match t
    case TString => TooLongStringIsLost(e, v, rest);
    case TList(elem) =>
      if |v.items| < LENGTH_LIMIT {
        var k :| 0 <= k < |v.items| && !Fits(v.items[k]);
        TooLongItemIsLost(e, elem, v.items, k, rest);
        ListDecodesItems(e, elem, v, rest);
      } else {
        TooLongListIsLost(e, elem, v, rest);
      }
    case TOption(elem) =>
      TooLongIsLost(e, elem, v.value, rest);
      assert (Encode(e, t, v) + rest)[1..] == Encode(e, elem, v.value) + rest;
    case TStruct(fields) =>
      var k :| 0 <= k < |v.fields| && !Fits(v.fields[k]);
      TooLongFieldIsLost(e, fields, v.fields, k, rest);
  }

  /** The bytes of a non-empty list body: the first item, then the others. */
  lemma ItemsUnfold(e: Endian, elem: Type, items: seq<Value>, rest: seq<byte>)
    requires items != [] && forall i :: 0 <= i < |items| ==> HasType(elem, items[i])
    ensures EncodeItems(e, elem, items) + rest == Encode(e, elem, items[0]) + (EncodeItems(e, elem, items[1..]) + rest)
  {
    var first, others := Encode(e, elem, items[0]), EncodeItems(e, elem, items[1..]);
    assert (first + others) + rest == first + (others + rest);
  }

  /** A decoded list starts with the first decoded item and goes on with the items decoded after it. */
  lemma DecodedSplit(e: Endian, elem: Type, n: nat, data: seq<byte>, items: seq<Value>)
    requires n > 0 && items != [] && DecodeItems(e, elem, n, data).Some? && DecodeItems(e, elem, n, data).value.0 == items
    ensures Decode(e, elem, data).Some? && Decode(e, elem, data).value.0 == items[0]
    ensures var more := DecodeItems(e, elem, n - 1, Decode(e, elem, data).value.1); more.Some? && more.value.0 == items[1..]
  {
    var v := Decode(e, elem, data).value.0;
    var more := DecodeItems(e, elem, n - 1, Decode(e, elem, data).value.1).value.0;
    assert ([v] + more)[0] == v && ([v] + more)[1..] == more;
  }

  lemma {:induction false} TooLongItemIsLost(e: Endian, elem: Type, items: seq<Value>, k: nat, rest: seq<byte>)
    requires forall i :: 0 <= i < |items| ==> HasType(elem, items[i])
    requires k < |items| && !Fits(items[k])
    ensures var r := DecodeItems(e, elem, |items|, EncodeItems(e, elem, items) + rest); r.Some? ==> r.value.0 != items
    decreases elem, |items| + 1
  {
    var data, tail := EncodeItems(e, elem, items) + rest, EncodeItems(e, elem, items[1..]) + rest;
    ItemsUnfold(e, elem, items, rest);
    if Fits(items[0]) {
      RoundTrip(e, elem, items[0], tail);
      TooLongItemIsLost(e, elem, items[1..], k - 1, rest);
    } else {
      TooLongIsLost(e, elem, items[0], tail);
    }
    var r := DecodeItems(e, elem, |items|, data);
    if r.Some? && r.value.0 == items {
      DecodedSplit(e, elem, |items|, data, items);
    }
  }

  lemma {:induction false} TooLongFieldIsLost(e: Endian, types: seq<Type>, values: seq<Value>, k: nat, rest: seq<byte>)
    requires |types| == |values| && forall i :: 0 <= i < |types| ==> HasType(types[i], values[i])
    requires k < |values| && !Fits(values[k])
    ensures var r := DecodeFields(e, types, EncodeFields(e, types, values) + rest); r.Some? ==> r.value.0 != values
    decreases types, 0
  {
    var first, others := Encode(e, types[0], values[0]), EncodeFields(e, types[1..], values[1..]);
    assert (first + others) + rest == first + (others + rest);
    if Fits(values[0]) {
      RoundTrip(e, types[0], values[0], others + rest);
      TooLongFieldIsLost(e, types[1..], values[1..], k - 1, rest);
    } else {
      TooLongIsLost(e, types[0], values[0], others + rest);
    }
  }

  /** A value comes back exactly when every list and string in it is shorter than 2^31. */
  lemma RoundTripExactly(e: Endian, t: Type, v: Value, rest: seq<byte>)
    requires HasType(t, v)
    ensures Decode(e, t, Encode(e, t, v) + rest) == Some((v, rest)) <==> Fits(v)
  {
    if Fits(v) {
      RoundTrip(e, t, v, rest);
    } else {
      TooLongIsLost(e, t, v, rest);
    }
  }

  /** No encoding is the beginning of another value's encoding; in particular encodings differ. */
  lemma PrefixFree(e: Endian, t: Type, v: Value, v': Value)
    requires HasType(t, v) && HasType(t, v') && Fits(v) && Fits(v')
    requires Encode(e, t, v) <= Encode(e, t, v')
    ensures v == v'
  {
    var rest := Encode(e, t, v')[|Encode(e, t, v)|..];
    assert Encode(e, t, v') == Encode(e, t, v) + rest;
    RoundTrip(e, t, v, rest);
    RoundTrip(e, t, v', []);
    assert Encode(e, t, v') + [] == Encode(e, t, v');
  }

  // --------------------------------------------------------------- what arrives

  lemma DecodeUnsignedBound(e: Endian, width: nat, data: seq<byte>)
    ensures DecodeUnsigned(e, width, data).Some? ==> DecodeUnsigned(e, width, data).value.0 < Pow256(width)
  {
    if |data| >= width {
      FromBytesBound(e, data[..width]);
    }
  }

  /** Whatever bytes arrive, a decoder that does not panic returns a value of its type. */
  lemma {:induction false} DecodeIsTyped(e: Endian, t: Type, data: seq<byte>)
    ensures Decode(e, t, data).Some? ==> HasType(t, Decode(e, t, data).value.0)
    decreases t, 0
  {
    match t
    case TBool | TString =>
    case TUnsigned(width) => DecodeUnsignedBound(e, width, data);
    case TSigned(width) => DecodeUnsignedBound(e, width, data);
    case TFloat => DecodeUnsignedBound(e, 8, data);
    case TEnum(_) => DecodeUnsignedBound(e, 4, data);
    case TList(elem) =>
      if DecodeLength(e, data).Some? {
        var (n, rest) := DecodeLength(e, data).value;
        DecodeItemsTyped(e, elem, n, rest);
      }
    case TOption(elem) =>
      if data != [] {
        DecodeIsTyped(e, elem, data[1..]);
      }
    case TStruct(fields) => DecodeFieldsTyped(e, fields, data);
  }

  lemma {:induction false} DecodeItemsTyped(e: Endian, elem: Type, n: nat, data: seq<byte>)
    ensures DecodeItems(e, elem, n, data).Some? ==>
              forall v :: v in DecodeItems(e, elem, n, data).value.0 ==> HasType(elem, v)
    decreases elem, n + 1
  {
    if n > 0 {
      DecodeIsTyped(e, elem, data);
      if Decode(e, elem, data).Some? {
        DecodeItemsTyped(e, elem, n - 1, Decode(e, elem, data).value.1);
      }
    }
  }

  lemma {:induction false} DecodeFieldsTyped(e: Endian, types: seq<Type>, data: seq<byte>)
    ensures DecodeFields(e, types, data).Some? ==> HasType(TStruct(types), VStruct(DecodeFields(e, types, data).value.0))
    decreases types, 0
  {
    if types != [] {
      DecodeIsTyped(e, types[0], data);
      if Decode(e, types[0], data).Some? {
        DecodeFieldsTyped(e, types[1..], Decode(e, types[0], data).value.1);
      }
    }
  }
}
