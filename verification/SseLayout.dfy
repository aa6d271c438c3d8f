/** The bytes of a configuration and of an error report, field by field. */
module SseLayout {
  import opened Wrappers
  import opened Bytes
  import opened SseCodec
  import opened SseMessages
  import opened SseWire

  /** Field `i` of a configuration on the wire, with its type. */
  function ConfigField(c: VntConfig, i: nat): (Type, Value)
    requires i < 28
  {
    match i
    case 0 => (TBool, VBool(c.tap))
    case 1 => (TString, VString(c.token))
    case 2 => (TString, VString(c.deviceId))
    case 3 => (TString, VString(c.name))
    case 4 => (TString, VString(c.serverAddress))
    case 5 => (TList(TString), Strings(c.nameServers))
    case 6 => (TList(TString), Strings(c.stunServer))
    case 7 => (TList(TStruct([TUnsigned(4), TUnsigned(4), TString])), InIps(c.inIps))
    case 8 => (TList(TStruct([TUnsigned(4), TUnsigned(4)])), OutIps(c.outIps))
    case 9 => (TOption(TString), MaybeString(c.password))
    case 10 => (TOption(TUnsigned(4)), MaybeInt(c.mtu))
    case 11 => (TOption(TString), MaybeString(c.ip))
    case 12 => (TBool, VBool(c.noProxy))
    case 13 => (TBool, VBool(c.serverEncrypt))
    case 14 => (TString, VString(c.cipherModel))
    case 15 => (TBool, VBool(c.finger))
    case 16 => (TString, VString(c.punchModel))
    case 17 => (TOption(TList(TUnsigned(2))), MaybePorts(c.ports))
    case 18 => (TBool, VBool(c.firstLatency))
    case 19 => (TOption(TString), MaybeString(c.deviceName))
    case 20 => (TString, VString(c.useChannelType))
    case 21 => (TOption(TFloat), MaybeFloat(c.packetLossRate))
    case 22 => (TUnsigned(4), VInt(c.packetDelay))
    case 23 => (TList(TString), Strings(c.portMappingList))
    case 24 => (TString, VString(c.compressor))
    case 25 => (TBool, VBool(c.allowWireGuard))
    case 26 => (TOption(TString), MaybeString(c.localDev))
    case _ => (TBool, VBool(c.disableRelay))
  }

  function ConfigTypes(c: VntConfig): (r: seq<Type>)
    ensures |r| == 28
  {
    seq(28, i requires 0 <= i < 28 => ConfigField(c, i).0)
  }

  function ConfigFields(c: VntConfig): (r: seq<Value>)
    ensures |r| == 28
  {
    seq(28, i requires 0 <= i < 28 => ConfigField(c, i).1)
  }

  lemma FirstSeven(c: VntConfig, i: nat)
    requires i < 7
    ensures ConfigField(c, i) == (CONFIG_1[i], Fields1(c)[i])
  {
  }

  lemma SecondSeven(c: VntConfig, i: nat)
    requires i < 7
    ensures ConfigField(c, 7 + i) == (CONFIG_2[i], Fields2(c)[i])
  {
  }

  lemma ThirdSeven(c: VntConfig, i: nat)
    requires i < 7
    ensures ConfigField(c, 14 + i) == (CONFIG_3[i], Fields3(c)[i])
  {
  }

  lemma FourthSeven(c: VntConfig, i: nat)
    requires i < 7
    ensures ConfigField(c, 21 + i) == (CONFIG_4[i], Fields4(c)[i])
  {
  }

  lemma InSevens<T>(a: seq<T>, b: seq<T>, c: seq<T>, d: seq<T>, i: nat)
    requires |a| == |b| == |c| == |d| == 7 && i < 28
    ensures (a + b + c + d)[i] == if i < 7 then a[i] else if i < 14 then b[i - 7] else if i < 21 then c[i - 14] else d[i - 21]
  {
  }

  lemma FieldIs(c: VntConfig, i: nat)
    requires i < 28
    ensures ConfigField(c, i) == (VNT_CONFIG.fields[i], ConfigValue(c).fields[i])
  {
    InSevens(CONFIG_1, CONFIG_2, CONFIG_3, CONFIG_4, i);
    InSevens(Fields1(c), Fields2(c), Fields3(c), Fields4(c), i);
    if i < 7 {
      FirstSeven(c, i);
    } else if i < 14 {
      SecondSeven(c, i - 7);
    } else if i < 21 {
      ThirdSeven(c, i - 14);
    } else {
      FourthSeven(c, i - 21);
    }
  }

  lemma FieldOrder(c: VntConfig)
    ensures VNT_CONFIG == TStruct(ConfigTypes(c)) && ConfigValue(c) == VStruct(ConfigFields(c))
  {
    forall i | 0 <= i < 28
      ensures ConfigTypes(c)[i] == VNT_CONFIG.fields[i] && ConfigFields(c)[i] == ConfigValue(c).fields[i]
    {
      FieldIs(c, i);
    }
  }

  /** A configuration is its 28 fields in this order, one after the other. */
  lemma ConfigLayout(e: Endian, c: VntConfig, b: seq<byte>)
    requires Fits(ConfigValue(c))
    ensures HasType(TStruct(ConfigTypes(c)), VStruct(ConfigFields(c))) && HasType(VNT_CONFIG, ConfigValue(c))
    ensures b == Encode(e, VNT_CONFIG, ConfigValue(c)) <==> WireFields(true, e, ConfigTypes(c), ConfigFields(c), b)
  {
    FieldOrder(c);
    ConfigTyped(c);
    EncodesExactly(e, VNT_CONFIG, ConfigValue(c), b);
  }

  /** The cases of the error report by their numbers. */
  const ERROR_ORDER := [
    TokenError, Disconnect, AddressExhausted, IpAlreadyExists, InvalidIp, LocalIpExists, FailedToCreateDevice, Warn, Unknown]

  lemma ErrorNumbers(n: nat)
    ensures n < 9 ==> Tag(ERROR_ORDER[n]) == n && FromTag(n) == Some(ERROR_ORDER[n])
    ensures n >= 9 ==> FromTag(n) == None
  {
  }

  /** An error report is its case's number in four bytes, then the message. */
  lemma ErrorLayout(e: Endian, x: ErrorInfo, n: nat, b: seq<byte>)
    requires Fits(ErrorValue(x)) && n < 9 && x.code == ERROR_ORDER[n]
    ensures HasType(ERROR_INFO, ErrorValue(x)) && HasType(OPTION_STRING, MaybeString(x.msg))
    ensures b == Encode(e, ERROR_INFO, ErrorValue(x)) <==>
            |b| >= 4 && Spells(e, b[..4], n) && Wire(true, e, OPTION_STRING, MaybeString(x.msg), b[4..])
  {
    ErrorNumbers(n);
    assert Fits(ErrorValue(x).fields[1]);
    OptionsTyped(x.msg, None, None);
    TwoFields(e, ERROR_TYPE, OPTION_STRING, VEnum(n), MaybeString(x.msg));
    var number, text := Encode(e, ERROR_TYPE, VEnum(n)), Encode(e, OPTION_STRING, MaybeString(x.msg));
    Cut(b, number, text);
    if |b| >= 4 {
      EncodesExactly(e, ERROR_TYPE, VEnum(n), b[..4]);
      EncodesExactly(e, OPTION_STRING, MaybeString(x.msg), b[4..]);
    }
  }

  lemma TwoFields(e: Endian, t: Type, u: Type, v: Value, w: Value)
    requires HasType(t, v) && HasType(u, w)
    ensures HasType(TStruct([t, u]), VStruct([v, w]))
    ensures Encode(e, TStruct([t, u]), VStruct([v, w])) == Encode(e, t, v) + Encode(e, u, w)
  {
    var types, values := [t, u], [v, w];
    assert types[1..] == [u] && values[1..] == [w];
    assert EncodeFields(e, [u], [w]) == Encode(e, u, w) + [];
  }
}
