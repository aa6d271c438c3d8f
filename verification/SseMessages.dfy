/** Records of the bridge as descriptors: the configuration, the error report and the route table. */
module SseMessages {
  import opened Wrappers
  import opened Bytes
  import opened SseCodec

  const U8 := TUnsigned(1)
  const U16 := TUnsigned(2)
  const U32 := TUnsigned(4)
  const I64 := TSigned(8)
  const STRING := TString
  const OPTION_STRING := TOption(TString)
  const LIST_STRING := TList(TString)
  const ROUTE := TStruct([STRING, STRING, U8, I64])
  const ROUTE_TABLE := TList(TStruct([STRING, TList(ROUTE)]))
  const ERROR_TYPE := TEnum(9)
  const ERROR_INFO := TStruct([ERROR_TYPE, OPTION_STRING])
  const IN_IP := TStruct([U32, U32, STRING])
  const OUT_IP := TStruct([U32, U32])

  /** The 28 fields of the configuration, seven at a time. */
  const CONFIG_1 := [TBool, STRING, STRING, STRING, STRING, LIST_STRING, LIST_STRING]
  const CONFIG_2 := [TList(IN_IP), TList(OUT_IP), OPTION_STRING, TOption(U32), OPTION_STRING, TBool, TBool]
  const CONFIG_3 := [STRING, TBool, STRING, TOption(TList(U16)), TBool, OPTION_STRING, STRING]
  const CONFIG_4 := [TOption(TFloat), U32, LIST_STRING, STRING, TBool, OPTION_STRING, TBool]
  const VNT_CONFIG := TStruct(CONFIG_1 + CONFIG_2 + CONFIG_3 + CONFIG_4)

  type Utf8 = b: seq<byte> | IsUtf8(b)
  type u16 = x: int | 0 <= x < 0x1_0000
  type u32 = x: int | 0 <= x < 0x1_0000_0000
  type f64 = x: int | 0 <= x < 0x1_0000_0000_0000_0000

  datatype VntConfig = VntConfig(
    tap: bool, token: Utf8, deviceId: Utf8, name: Utf8, serverAddress: Utf8,
    nameServers: seq<Utf8>, stunServer: seq<Utf8>, inIps: seq<(u32, u32, Utf8)>, outIps: seq<(u32, u32)>,
    password: Option<Utf8>, mtu: Option<u32>, ip: Option<Utf8>, noProxy: bool, serverEncrypt: bool,
    cipherModel: Utf8, finger: bool, punchModel: Utf8, ports: Option<seq<u16>>, firstLatency: bool,
    deviceName: Option<Utf8>, useChannelType: Utf8, packetLossRate: Option<f64>, packetDelay: u32,
    portMappingList: seq<Utf8>, compressor: Utf8, allowWireGuard: bool, localDev: Option<Utf8>, disableRelay: bool)

  function Strings(ss: seq<Utf8>): Value {
    VList(seq(|ss|, i requires 0 <= i < |ss| => VString(ss[i])))
  }

  function MaybeString(s: Option<Utf8>): Value {
    if s.None? then VNone else VSome(VString(s.value))
  }

  function MaybeInt(n: Option<u32>): Value {
    if n.None? then VNone else VSome(VInt(n.value))
  }

  function InIps(ips: seq<(u32, u32, Utf8)>): Value {
    VList(seq(|ips|, i requires 0 <= i < |ips| => VStruct([VInt(ips[i].0), VInt(ips[i].1), VString(ips[i].2)])))
  }

  function OutIps(ips: seq<(u32, u32)>): Value {
    VList(seq(|ips|, i requires 0 <= i < |ips| => VStruct([VInt(ips[i].0), VInt(ips[i].1)])))
  }

  function MaybePorts(ports: Option<seq<u16>>): Value {
    if ports.None? then VNone
    else VSome(VList(seq(|ports.value|, i requires 0 <= i < |ports.value| => VInt(ports.value[i]))))
  }

  function MaybeFloat(x: Option<f64>): Value {
    if x.None? then VNone else VSome(VFloat(x.value))
  }

  function Fields1(c: VntConfig): seq<Value> {
    [VBool(c.tap), VString(c.token), VString(c.deviceId), VString(c.name), VString(c.serverAddress),
     Strings(c.nameServers), Strings(c.stunServer)]
  }

  function Fields2(c: VntConfig): seq<Value> {
    [InIps(c.inIps), OutIps(c.outIps), MaybeString(c.password), MaybeInt(c.mtu), MaybeString(c.ip),
     VBool(c.noProxy), VBool(c.serverEncrypt)]
  }

  function Fields3(c: VntConfig): seq<Value> {
    [VString(c.cipherModel), VBool(c.finger), VString(c.punchModel), MaybePorts(c.ports), VBool(c.firstLatency),
     MaybeString(c.deviceName), VString(c.useChannelType)]
  }

  function Fields4(c: VntConfig): seq<Value> {
    [MaybeFloat(c.packetLossRate), VInt(c.packetDelay), Strings(c.portMappingList), VString(c.compressor),
     VBool(c.allowWireGuard), MaybeString(c.localDev), VBool(c.disableRelay)]
  }

  /** The fields in the order `VntConfig::sse_encode` writes them. */
  function ConfigValue(c: VntConfig): Value {
    VStruct(Fields1(c) + Fields2(c) + Fields3(c) + Fields4(c))
  }

  function AsBool(v: Value): bool {
    v.VBool? && v.b
  }

  function AsString(v: Value): Utf8 {
    if v.VString? && IsUtf8(v.utf8) then v.utf8 else []
  }

  function AsStrings(v: Value): seq<Utf8> {
    if v.VList? then seq(|v.items|, i requires 0 <= i < |v.items| => AsString(v.items[i])) else []
  }

  function AsU32(v: Value): u32 {
    if v.VInt? && 0 <= v.n < 0x1_0000_0000 then v.n else 0
  }

  function AsU16(v: Value): u16 {
    if v.VInt? && 0 <= v.n < 0x1_0000 then v.n else 0
  }

  function AsF64(v: Value): f64 {
    if v.VFloat? && v.bits < 0x1_0000_0000_0000_0000 then v.bits else 0
  }

  function AsInIp(v: Value): (u32, u32, Utf8) {
    if v.VStruct? && |v.fields| == 3 then (AsU32(v.fields[0]), AsU32(v.fields[1]), AsString(v.fields[2])) else (0, 0, [])
  }

  function AsOutIp(v: Value): (u32, u32) {
    if v.VStruct? && |v.fields| == 2 then (AsU32(v.fields[0]), AsU32(v.fields[1])) else (0, 0)
  }

  function AsInIps(v: Value): seq<(u32, u32, Utf8)> {
    if v.VList? then seq(|v.items|, i requires 0 <= i < |v.items| => AsInIp(v.items[i])) else []
  }

  function AsOutIps(v: Value): seq<(u32, u32)> {
    if v.VList? then seq(|v.items|, i requires 0 <= i < |v.items| => AsOutIp(v.items[i])) else []
  }

  function AsPorts(v: Value): seq<u16> {
    if v.VList? then seq(|v.items|, i requires 0 <= i < |v.items| => AsU16(v.items[i])) else []
  }

  function AsMaybeString(v: Value): Option<Utf8> {
    if v.VSome? then Some(AsString(v.value)) else None
  }

  function AsMaybeU32(v: Value): Option<u32> {
    if v.VSome? then Some(AsU32(v.value)) else None
  }

  function AsMaybeF64(v: Value): Option<f64> {
    if v.VSome? then Some(AsF64(v.value)) else None
  }

  function AsMaybePorts(v: Value): Option<seq<u16>> {
    if v.VSome? then Some(AsPorts(v.value)) else None
  }

  /** The record `VntConfig::sse_decode` builds from the fields in the order it reads them. */
  function ConfigOf(a: seq<Value>, b: seq<Value>, c: seq<Value>, d: seq<Value>): VntConfig
    requires |a| == |b| == |c| == |d| == 7
  {
    VntConfig(
      AsBool(a[0]), AsString(a[1]), AsString(a[2]), AsString(a[3]), AsString(a[4]), AsStrings(a[5]), AsStrings(a[6]),
      AsInIps(b[0]), AsOutIps(b[1]), AsMaybeString(b[2]), AsMaybeU32(b[3]), AsMaybeString(b[4]),
      AsBool(b[5]), AsBool(b[6]),
      AsString(c[0]), AsBool(c[1]), AsString(c[2]), AsMaybePorts(c[3]), AsBool(c[4]),
      AsMaybeString(c[5]), AsString(c[6]),
      AsMaybeF64(d[0]), AsU32(d[1]), AsStrings(d[2]), AsString(d[3]), AsBool(d[4]), AsMaybeString(d[5]), AsBool(d[6]))
  }

  function DecodeConfig(e: Endian, data: seq<byte>): Decoded<VntConfig> {
    match Decode(e, VNT_CONFIG, data)
    case None => None
    case Some((v, rest)) =>
      if v.VStruct? && |v.fields| == 28
      then Some((ConfigOf(v.fields[..7], v.fields[7..14], v.fields[14..21], v.fields[21..]), rest))
      else None
  }

  lemma ListsTyped(ss: seq<Utf8>, ins: seq<(u32, u32, Utf8)>, outs: seq<(u32, u32)>, ports: Option<seq<u16>>)
    ensures HasType(LIST_STRING, Strings(ss))
    ensures HasType(TList(IN_IP), InIps(ins)) && HasType(TList(OUT_IP), OutIps(outs))
    ensures HasType(TOption(TList(U16)), MaybePorts(ports))
  {
    Pow256Values();
  }

  lemma OptionsTyped(s: Option<Utf8>, n: Option<u32>, x: Option<f64>)
    ensures HasType(OPTION_STRING, MaybeString(s)) && HasType(TOption(U32), MaybeInt(n))
    ensures HasType(TOption(TFloat), MaybeFloat(x))
  {
    Pow256Values();
    Pow256OfEight();
  }

  lemma Part1Typed(c: VntConfig)
    ensures HasType(TStruct(CONFIG_1), VStruct(Fields1(c)))
  {
    ListsTyped(c.nameServers, [], [], None);
    ListsTyped(c.stunServer, [], [], None);
  }

  lemma Part2Typed(c: VntConfig)
    ensures HasType(TStruct(CONFIG_2), VStruct(Fields2(c)))
  {
    ListsTyped([], c.inIps, c.outIps, None);
    OptionsTyped(c.password, c.mtu, None);
    OptionsTyped(c.ip, None, None);
  }

  lemma Part3Typed(c: VntConfig)
    ensures HasType(TStruct(CONFIG_3), VStruct(Fields3(c)))
  {
    ListsTyped([], [], [], c.ports);
    OptionsTyped(c.deviceName, None, None);
  }

  lemma Part4Typed(c: VntConfig)
    ensures HasType(TStruct(CONFIG_4), VStruct(Fields4(c)))
  {
    Pow256Values();
    ListsTyped(c.portMappingList, [], [], None);
    OptionsTyped(c.localDev, None, c.packetLossRate);
  }

  lemma StructConcat(ts: seq<Type>, us: seq<Type>, vs: seq<Value>, ws: seq<Value>)
    requires HasType(TStruct(ts), VStruct(vs)) && HasType(TStruct(us), VStruct(ws))
    ensures HasType(TStruct(ts + us), VStruct(vs + ws))
  {
  }

  lemma ConfigTyped(c: VntConfig)
    ensures HasType(VNT_CONFIG, ConfigValue(c))
  {
    Part1Typed(c);
    Part2Typed(c);
    Part3Typed(c);
    Part4Typed(c);
    StructConcat(CONFIG_1, CONFIG_2, Fields1(c), Fields2(c));
    StructConcat(CONFIG_1 + CONFIG_2, CONFIG_3, Fields1(c) + Fields2(c), Fields3(c));
    StructConcat(CONFIG_1 + CONFIG_2 + CONFIG_3, CONFIG_4, Fields1(c) + Fields2(c) + Fields3(c), Fields4(c));
  }

  lemma ListsComeBack(ss: seq<Utf8>, ins: seq<(u32, u32, Utf8)>, outs: seq<(u32, u32)>, ports: Option<seq<u16>>)
    ensures AsStrings(Strings(ss)) == ss
    ensures AsInIps(InIps(ins)) == ins && AsOutIps(OutIps(outs)) == outs
    ensures AsMaybePorts(MaybePorts(ports)) == ports
  {
    if ports.Some? {
      assert AsPorts(MaybePorts(ports).value) == ports.value;
    }
  }

  lemma FirstHalfComesBack(c: VntConfig, b: seq<Value>, d: seq<Value>)
    requires |b| == |d| == 7
    ensures var r := ConfigOf(Fields1(c), Fields2(c), b, d);
            && r.tap == c.tap && r.token == c.token && r.deviceId == c.deviceId && r.name == c.name
            && r.serverAddress == c.serverAddress && r.nameServers == c.nameServers && r.stunServer == c.stunServer
            && r.inIps == c.inIps && r.outIps == c.outIps && r.password == c.password && r.mtu == c.mtu && r.ip == c.ip
            && r.noProxy == c.noProxy && r.serverEncrypt == c.serverEncrypt
  {
    ListsComeBack(c.nameServers, c.inIps, c.outIps, None);
    ListsComeBack(c.stunServer, [], [], None);
  }

  lemma SecondHalfComesBack(c: VntConfig, a: seq<Value>, b: seq<Value>)
    requires |a| == |b| == 7
    ensures var r := ConfigOf(a, b, Fields3(c), Fields4(c));
            && r.cipherModel == c.cipherModel && r.finger == c.finger && r.punchModel == c.punchModel
            && r.ports == c.ports && r.firstLatency == c.firstLatency && r.deviceName == c.deviceName
            && r.useChannelType == c.useChannelType && r.packetLossRate == c.packetLossRate
            && r.packetDelay == c.packetDelay && r.portMappingList == c.portMappingList && r.compressor == c.compressor
            && r.allowWireGuard == c.allowWireGuard && r.localDev == c.localDev && r.disableRelay == c.disableRelay
  {
    ListsComeBack(c.portMappingList, [], [], c.ports);
  }

  /** Every field is read into the place it was written from. */
  lemma ConfigComesBack(c: VntConfig)
    ensures ConfigOf(Fields1(c), Fields2(c), Fields3(c), Fields4(c)) == c
  {
    FirstHalfComesBack(c, Fields3(c), Fields4(c));
    SecondHalfComesBack(c, Fields1(c), Fields2(c));
  }

  lemma FourSlices(a: seq<Value>, b: seq<Value>, c: seq<Value>, d: seq<Value>)
    requires |a| == |b| == |c| == |d| == 7
    ensures var v := a + b + c + d;
            |v| == 28 && v[..7] == a && v[7..14] == b && v[14..21] == c && v[21..] == d
  {
  }

  /** A configuration crosses the bridge unchanged, and the bytes behind it are left alone. */
  lemma ConfigRoundTrip(e: Endian, c: VntConfig, rest: seq<byte>)
    requires Fits(ConfigValue(c))
    ensures HasType(VNT_CONFIG, ConfigValue(c))
    ensures DecodeConfig(e, Encode(e, VNT_CONFIG, ConfigValue(c)) + rest) == Some((c, rest))
  {
    ConfigTyped(c);
    RoundTrip(e, VNT_CONFIG, ConfigValue(c), rest);
    ConfigComesBack(c);
    FourSlices(Fields1(c), Fields2(c), Fields3(c), Fields4(c));
  }

  // The error report

  datatype RustErrorType =
    | TokenError
    | Disconnect
    | AddressExhausted
    | IpAlreadyExists
    | InvalidIp
    | LocalIpExists
    | FailedToCreateDevice
    | Warn
    | Unknown

  /** The table `RustErrorType::sse_encode` writes by. */
  function Tag(t: RustErrorType): nat {
    match t
    case TokenError => 0
    case Disconnect => 1
    case AddressExhausted => 2
    case IpAlreadyExists => 3
    case InvalidIp => 4
    case LocalIpExists => 5
    case FailedToCreateDevice => 6
    case Warn => 7
    case Unknown => 8
  }

  /** The table `RustErrorType::sse_decode` reads by; it panics on any other number. */
  function FromTag(n: nat): Option<RustErrorType> {
    match n
    case 0 => Some(TokenError)
    case 1 => Some(Disconnect)
    case 2 => Some(AddressExhausted)
    case 3 => Some(IpAlreadyExists)
    case 4 => Some(InvalidIp)
    case 5 => Some(LocalIpExists)
    case 6 => Some(FailedToCreateDevice)
    case 7 => Some(Warn)
    case 8 => Some(Unknown)
    case _ => None
  }

  /** The two tables are inverse, and cover the nine numbers the codec lets through. */
  lemma TagsAreInverse(t: RustErrorType, n: nat)
    ensures FromTag(n) == Some(t) <==> n == Tag(t)
    ensures FromTag(n).Some? <==> HasType(ERROR_TYPE, VEnum(n))
  {
  }

  datatype ErrorInfo = ErrorInfo(code: RustErrorType, msg: Option<Utf8>)

  function ErrorValue(x: ErrorInfo): Value {
    VStruct([VEnum(Tag(x.code)), MaybeString(x.msg)])
  }

  function DecodeError(e: Endian, data: seq<byte>): Decoded<ErrorInfo> {
    match Decode(e, ERROR_INFO, data)
    case None => None
    case Some((v, rest)) =>
      if v.VStruct? && |v.fields| == 2 && v.fields[0].VEnum? && FromTag(v.fields[0].tag).Some?
      then Some((ErrorInfo(FromTag(v.fields[0].tag).value, AsMaybeString(v.fields[1])), rest))
      else None
  }

  /** An error report crosses the bridge unchanged, its case through both tables. */
  lemma ErrorRoundTrip(e: Endian, x: ErrorInfo, rest: seq<byte>)
    requires Fits(ErrorValue(x))
    ensures HasType(ERROR_INFO, ErrorValue(x))
    ensures DecodeError(e, Encode(e, ERROR_INFO, ErrorValue(x)) + rest) == Some((x, rest))
  {
    OptionsTyped(x.msg, None, None);
    TagsAreInverse(x.code, Tag(x.code));
    RoundTrip(e, ERROR_INFO, ErrorValue(x), rest);
  }

  // The route table

  type u8 = x: int | 0 <= x < 0x100
  type i64 = x: int | -0x8000_0000_0000_0000 <= x < 0x8000_0000_0000_0000

  datatype Route = Route(protocol: Utf8, addr: Utf8, metric: u8, rt: i64)

  function RouteValue(r: Route): Value {
    VStruct([VString(r.protocol), VString(r.addr), VInt(r.metric), VInt(r.rt)])
  }

  function RoutesValue(rs: seq<Route>): Value {
    VList(seq(|rs|, i requires 0 <= i < |rs| => RouteValue(rs[i])))
  }

  /** `Vec<(String, Vec<RustRoute>)>` */
  function TableValue(table: seq<(Utf8, seq<Route>)>): Value {
    VList(seq(|table|, i requires 0 <= i < |table| => VStruct([VString(table[i].0), RoutesValue(table[i].1)])))
  }

  function AsU8(v: Value): u8 {
    if v.VInt? && 0 <= v.n < 0x100 then v.n else 0
  }

  function AsI64(v: Value): i64 {
    if v.VInt? && -0x8000_0000_0000_0000 <= v.n < 0x8000_0000_0000_0000 then v.n else 0
  }

  function AsRoute(v: Value): Route {
    if v.VStruct? && |v.fields| == 4
    then Route(AsString(v.fields[0]), AsString(v.fields[1]), AsU8(v.fields[2]), AsI64(v.fields[3]))
    else Route([], [], 0, 0)
  }

  function AsRoutes(v: Value): seq<Route> {
    if v.VList? then seq(|v.items|, i requires 0 <= i < |v.items| => AsRoute(v.items[i])) else []
  }

  function AsRow(v: Value): (Utf8, seq<Route>) {
    if v.VStruct? && |v.fields| == 2 then (AsString(v.fields[0]), AsRoutes(v.fields[1])) else ([], [])
  }

  function DecodeTable(e: Endian, data: seq<byte>): Decoded<seq<(Utf8, seq<Route>)>> {
    match Decode(e, ROUTE_TABLE, data)
    case None => None
    case Some((v, rest)) =>
      if v.VList? then Some((seq(|v.items|, i requires 0 <= i < |v.items| => AsRow(v.items[i])), rest)) else None
  }

  lemma Pow256OfEight()
    ensures Pow256(8) == 0x1_0000_0000_0000_0000
  {
    Pow256Values();
    assert Pow256(6) == 256 * 256 * Pow256(4);
    assert Pow256(8) == 256 * 256 * Pow256(6);
  }

  lemma RouteTyped(r: Route)
    ensures HasType(ROUTE, RouteValue(r)) && AsRoute(RouteValue(r)) == r
  {
    Pow256Values();
    Pow256OfEight();
  }

  lemma RoutesTyped(rs: seq<Route>)
    ensures HasType(TList(ROUTE), RoutesValue(rs)) && AsRoutes(RoutesValue(rs)) == rs
  {
    forall i | 0 <= i < |rs|
      ensures HasType(ROUTE, RoutesValue(rs).items[i]) && AsRoutes(RoutesValue(rs))[i] == rs[i]
    {
      RouteTyped(rs[i]);
    }
  }

  lemma RowTyped(row: (Utf8, seq<Route>))
    ensures var v := VStruct([VString(row.0), RoutesValue(row.1)]);
      HasType(TStruct([STRING, TList(ROUTE)]), v) && AsRow(v) == row
  {
    RoutesTyped(row.1);
  }

  lemma TableTyped(table: seq<(Utf8, seq<Route>)>)
    ensures HasType(ROUTE_TABLE, TableValue(table))
    ensures forall i :: 0 <= i < |table| ==> AsRow(TableValue(table).items[i]) == table[i]
  {
    forall i | 0 <= i < |table|
      ensures HasType(TStruct([STRING, TList(ROUTE)]), TableValue(table).items[i])
      ensures AsRow(TableValue(table).items[i]) == table[i]
    {
      RowTyped(table[i]);
    }
  }

  /** So does a table of routes, a list of records in a list of pairs. */
  lemma TableRoundTrip(e: Endian, table: seq<(Utf8, seq<Route>)>, rest: seq<byte>)
    requires Fits(TableValue(table))
    ensures HasType(ROUTE_TABLE, TableValue(table))
    ensures DecodeTable(e, Encode(e, ROUTE_TABLE, TableValue(table)) + rest) == Some((table, rest))
  {
    TableTyped(table);
    RoundTrip(e, ROUTE_TABLE, TableValue(table), rest);
    var items := TableValue(table).items;
    assert seq(|items|, i requires 0 <= i < |items| => AsRow(items[i])) == table;
  }
}
