/** One message across the bridge: written with a fresh serializer, read with a fresh deserializer. */
module SseExchange {
  import opened Wrappers
  import opened Bytes
  import opened SseCodec
  import opened SseCursor
  import opened SseWire

  /** One message written: its strict form, if it fits. */
  method Send(endian: Endian, t: Type, v: Value) returns (bytes: seq<byte>)
    requires HasType(t, v)
    ensures bytes == Encode(endian, t, v)
    ensures Fits(v) ==> Wire(true, endian, t, v, bytes)
  {
    var serializer := new SseSerializer(endian);
    serializer.Write(t, v);
    bytes := serializer.bytes;
    if Fits(v) {
      EncodesExactly(endian, t, v, bytes);
    }
  }

  lemma Understood(e: Endian, t: Type, data: seq<byte>, v: Value, used: nat)
    requires used <= |data| && Decode(e, t, data) == Some((v, data[used..]))
    ensures Readable(e, t, data) && HasType(t, v) && Wire(false, e, t, v, data[..used])
  {
    DecodeIsTyped(e, t, data);
    DecodesExactly(e, t, v, data, used);
  }

  /** One message read from any bytes: the value whose form they start with, if there is one. */
  method Receive(endian: Endian, t: Type, data: seq<byte>) returns (r: Option<Value>, used: nat)
    ensures r.Some? <==> Readable(endian, t, data)
    ensures r.Some? ==> used <= |data| && HasType(t, r.value) && Wire(false, endian, t, r.value, data[..used])
    ensures r == if Decode(endian, t, data).Some? then Some(Decode(endian, t, data).value.0) else None
  {
    var deserializer := new SseDeserializer(endian, data);
    r := deserializer.Read(t);
    used := deserializer.position;
    if r.Some? {
      Understood(endian, t, data, r.value, used);
    } else {
      ReadableExactly(endian, t, data);
    }
  }

  /** What is sent is received, exactly if every list and string in it is shorter than 2^31. */
  method Transfer(endian: Endian, t: Type, v: Value) returns (r: Option<Value>)
    requires HasType(t, v)
    ensures r == Some(v) <==> Fits(v)
  {
    var bytes := Send(endian, t, v);
    var used: nat;
    r, used := Receive(endian, t, bytes);
    assert bytes == bytes + [];
    RoundTripExactly(endian, t, v, []);
    if !Fits(v) {
      TooLongIsLost(endian, t, v, []);
    }
  }
}
