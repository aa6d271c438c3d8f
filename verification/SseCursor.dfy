/** The serializer and deserializer cursors, driven in the order of the generated code. */
module SseCursor {
  import opened Wrappers
  import opened Bytes
  import opened SseCodec

  lemma Regroup(a: seq<byte>, b: seq<byte>, c: seq<byte>)
    ensures a + (b + c) == (a + b) + c
  {
  }

  lemma ItemsFrom(e: Endian, elem: Type, items: seq<Value>, i: nat)
    requires i < |items| && forall j :: 0 <= j < |items| ==> HasType(elem, items[j])
    ensures EncodeItems(e, elem, items[i..]) == Encode(e, elem, items[i]) + EncodeItems(e, elem, items[i + 1..])
  {
    assert items[i..][1..] == items[i + 1..];
  }

  lemma WriteItemStep(e: Endian, elem: Type, items: seq<Value>, i: nat, bytes: seq<byte>)
    requires i < |items| && forall j :: 0 <= j < |items| ==> HasType(elem, items[j])
    ensures bytes + EncodeItems(e, elem, items[i..])
         == (bytes + Encode(e, elem, items[i])) + EncodeItems(e, elem, items[i + 1..])
  {
    ItemsFrom(e, elem, items, i);
    Regroup(bytes, Encode(e, elem, items[i]), EncodeItems(e, elem, items[i + 1..]));
  }

  lemma PrependTwice(vs: seq<Value>, v: Value, more: Decoded<seq<Value>>)
    ensures Prepend(vs, Prepend([v], more)) == Prepend(vs + [v], more)
  {
    if more.Some? {
      assert vs + ([v] + more.value.0) == (vs + [v]) + more.value.0;
    }
  }

  class SseSerializer {
    const endian: Endian
    var bytes: seq<byte>

    constructor (endian: Endian)
      ensures this.endian == endian && bytes == []
    {
      this.endian := endian;
      bytes := [];
    }

    /** `sse_encode`: appends the value's encoding, list bodies item by item. */
    method Write(t: Type, v: Value)
      requires HasType(t, v)
      modifies this
      ensures bytes == old(bytes) + Encode(endian, t, v)
      decreases t, 0
    {
      match t
      case TList(elem) =>
        bytes := bytes + EncodeLength(endian, |v.items|);
        WriteItems(elem, v.items);
      case TOption(elem) =>
        if v.VNone? {
          bytes := bytes + [0];
        } else {
          bytes := bytes + [1];
          Write(elem, v.value);
        }
      case TStruct(fields) => WriteFields(fields, v.fields);
      case _ => bytes := bytes + Encode(endian, t, v);
    }

    method WriteItems(elem: Type, items: seq<Value>)
      requires forall i :: 0 <= i < |items| ==> HasType(elem, items[i])
      modifies this
      ensures bytes == old(bytes) + EncodeItems(endian, elem, items)
      decreases elem, 1
    {
      ghost var whole := bytes + EncodeItems(endian, elem, items);
      for i := 0 to |items|
        invariant bytes + EncodeItems(endian, elem, items[i..]) == whole
      {
        WriteItemStep(endian, elem, items, i, bytes);
        Write(elem, items[i]);
      }
    }

    method WriteFields(types: seq<Type>, values: seq<Value>)
      requires |types| == |values| && forall i :: 0 <= i < |types| ==> HasType(types[i], values[i])
      modifies this
      ensures bytes == old(bytes) + EncodeFields(endian, types, values)
      decreases types, 0
    {
      ghost var whole := bytes + EncodeFields(endian, types, values);
      for i := 0 to |types|
        invariant bytes + EncodeFields(endian, types[i..], values[i..]) == whole
      {
        ghost var before := bytes;
        Write(types[i], values[i]);
        assert types[i..][1..] == types[i + 1..] && values[i..][1..] == values[i + 1..];
        assert before + (Encode(endian, types[i], values[i]) + EncodeFields(endian, types[i + 1..], values[i + 1..])) == whole;
      }
    }
  }

  class SseDeserializer {
    const endian: Endian
    const data: seq<byte>
    var position: nat

    ghost predicate Valid()
      reads this
    {
      position <= |data|
    }

    ghost function Rest(): seq<byte>
      requires Valid()
      reads this
    {
      data[position..]
    }

    constructor (endian: Endian, data: seq<byte>)
      ensures this.endian == endian && this.data == data && Valid() && Rest() == data
    {
      this.endian, this.data := endian, data;
      position := 0;
    }

    method ReadBytes(n: nat) returns (r: Option<seq<byte>>)
      requires Valid()
      modifies this
      ensures Valid()
      ensures match Take(n, old(Rest()))
              case None => r.None?
              case Some((b, rest)) => r == Some(b) && Rest() == rest
    {
      if |data| - position < n {
        return None;
      }
      r := Some(data[position..position + n]);
      assert data[position..][..n] == data[position..position + n];
      assert data[position..][n..] == data[position + n..];
      position := position + n;
    }

    method ReadLength() returns (r: Option<nat>)
      requires Valid()
      modifies this
      ensures Valid()
      ensures match DecodeLength(endian, old(Rest()))
              case None => r.None?
              case Some((n, rest)) => r == Some(n) && Rest() == rest
    {
      var b := ReadBytes(4);
      if b.None? {
        return None;
      }
      var n := FromBytes(endian, b.value);
      r := Some(if n < LENGTH_LIMIT then n else 0);
    }

    /** `Vec::sse_decode`: a counted loop that pushes one decoded item per turn. */
    method ReadItems(elem: Type, n: nat) returns (r: Option<seq<Value>>)
      requires Valid()
      modifies this
      ensures Valid()
      ensures match DecodeItems(endian, elem, n, old(Rest()))
              case None => r.None?
              case Some((vs, rest)) => r == Some(vs) && Rest() == rest
      decreases elem, 1
    {
      ghost var whole := DecodeItems(endian, elem, n, Rest());
      var ans: seq<Value> := [];
      assert whole.Some? ==> [] + whole.value.0 == whole.value.0;
      for i := 0 to n
        invariant Valid()
        invariant whole == Prepend(ans, DecodeItems(endian, elem, n - i, Rest()))
      {
        ghost var before := Rest();
        var v := Read(elem);
        if v.None? {
          return None;
        }
        DecodeItemsStep(endian, elem, n - i, before, v.value, Rest());
        PrependTwice(ans, v.value, DecodeItems(endian, elem, n - i - 1, Rest()));
        ans := ans + [v.value];
      }
      assert ans + [] == ans;
      r := Some(ans);
    }

    method ReadFields(types: seq<Type>) returns (r: Option<seq<Value>>)
      requires Valid()
      modifies this
      ensures Valid()
      ensures match DecodeFields(endian, types, old(Rest()))
              case None => r.None?
              case Some((vs, rest)) => r == Some(vs) && Rest() == rest
      decreases types, 0
    {
      ghost var whole := DecodeFields(endian, types, Rest());
      assert types[0..] == types;
      var ans: seq<Value> := [];
      assert whole.Some? ==> [] + whole.value.0 == whole.value.0;
      for i := 0 to |types|
        invariant Valid()
        invariant whole == Prepend(ans, DecodeFields(endian, types[i..], Rest()))
      {
        var v := Read(types[i]);
        if v.None? {
          return None;
        }
        assert types[i..][1..] == types[i + 1..];
        PrependTwice(ans, v.value, DecodeFields(endian, types[i + 1..], Rest()));
        ans := ans + [v.value];
      }
      assert ans + [] == ans;
      r := Some(ans);
    }

    /** `sse_decode`: None where the generated code panics. */
    method Read(t: Type) returns (r: Option<Value>)
      requires Valid()
      modifies this
      ensures Valid()
      ensures match Decode(endian, t, old(Rest()))
              case None => r.None?
              case Some((v, rest)) => r == Some(v) && Rest() == rest
      decreases t, 0
    {
      match t
      case TList(elem) =>
        var n := ReadLength();
        if n.None? {
          return None;
        }
        var items := ReadItems(elem, n.value);
        r := if items.None? then None else Some(VList(items.value));
      case TOption(elem) =>
        var b := ReadBytes(1);
        if b.None? {
          return None;
        }
        if b.value[0] == 0 {
          return Some(VNone);
        }
        var v := Read(elem);
        r := if v.None? then None else Some(VSome(v.value));
      case TStruct(fields) =>
        var vs := ReadFields(fields);
        r := if vs.None? then None else Some(VStruct(vs.value));
      case TString =>
        var n := ReadLength();
        if n.None? {
          return None;
        }
        var b := ReadBytes(n.value);
        r := if b.Some? && IsUtf8(b.value) then Some(VString(b.value)) else None;
      case _ => r := ReadScalar(t);
    }

    method ReadScalar(t: Type) returns (r: Option<Value>)
      requires Valid() && !t.TList? && !t.TOption? && !t.TStruct? && !t.TString?
      modifies this
      ensures Valid()
      ensures match Decode(endian, t, old(Rest()))
              case None => r.None?
              case Some((v, rest)) => r == Some(v) && Rest() == rest
    {
      var width := match t
        case TBool => 1
        case TUnsigned(width) => width
        case TSigned(width) => width
        case TFloat => 8
        case _ => 4;
      var b := ReadBytes(width);
      if b.None? {
        return None;
      }
      var n := FromBytes(endian, b.value);
      r := match t
        case TBool => Some(VBool(b.value[0] != 0))
        case TUnsigned(_) => Some(VInt(n))
        case TSigned(_) => Some(VInt(if 2 * n < Pow256(width) then n else n - Pow256(width)))
        case TFloat => Some(VFloat(n))
        case TEnum(count) => if n < count && n < LENGTH_LIMIT then Some(VEnum(n)) else None
        case _ => None;
    }
  }
}
