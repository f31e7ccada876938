/** The bytes of chunks and parameters: `serialize` and `parse` as functions. */
module Wire {
  import opened Basics
  import opened Chunks
  import opened BigEndian

  datatype Result<+T, +E> = Ok(value: T) | Err(error: E)

  datatype ChunkError = Unrecognized(report: bool, stop: bool) | IllegalFormat | Done

  datatype ParamError =
    | UnrecognizedType(report: bool, stop: bool, typ: u16, data: Bytes)
    | IllegalParam
    | ParamsDone

  datatype Param =
    | UnrecognizedP(param: UnrecognizedParam)
    | StateCookieP(cookie: StateCookie)
    | CookiePreservative(ms: u32)
    | IpV4Addr(v4: u32)
    | IpV6Addr(v6: u128)
    | HostNameDeprecated
    | SupportedTypes(types: SupportedAddrTypes)

  const PARAM_IPV4_ADDR: u16 := 5
  const PARAM_IPV6_ADDR: u16 := 6
  const PARAM_STATE_COOKIE: u16 := 7
  const PARAM_UNRECOGNIZED: u16 := 8
  const PARAM_COOKIE_PRESERVATIVE: u16 := 9
  const PARAM_HOSTNAME_DEPRECATED: u16 := 11
  const PARAM_SUPPORTED_ADDRESSES: u16 := 12

  const CHUNK_DATA: byte := 0
  const CHUNK_INIT: byte := 1
  const CHUNK_INIT_ACK: byte := 2
  const CHUNK_SACK: byte := 3
  const CHUNK_HEARTBEAT: byte := 4
  const CHUNK_HEARTBEAT_ACK: byte := 5
  const CHUNK_ABORT: byte := 6
  const CHUNK_SHUTDOWN: byte := 7
  const CHUNK_SHUTDOWN_ACK: byte := 8
  const CHUNK_OP_ERROR: byte := 9
  const CHUNK_STATE_COOKIE: byte := 10
  const CHUNK_STATE_COOKIE_ACK: byte := 11
  const CHUNK_RESERVED_ECNE: byte := 12
  const CHUNK_RESERVED_CWR: byte := 13
  const CHUNK_SHUTDOWN_COMPLETE: byte := 14
  const CHUNK_PAD: byte := 0x84

  function Zeros(n: nat): Bytes { seq(n, _ => 0) }

  // ----- cookies -----

  function PutAddress(a: TransportAddress): Bytes {
    match a
    case Fake(v) => [0] + Put(v, 8)
    case IpV4(v) => [1] + Put(v, 4)
    case IpV6(v) => [2] + Put(v, 16)
  }

  function PutAliases(aliases: seq<TransportAddress>): Bytes {
    if aliases == [] then []
    else (if aliases[0].Fake? then [] else PutAddress(aliases[0])) + PutAliases(aliases[1..])
  }

  /** The widths of the numbers at the start of a cookie, in the order of `CookieNumbers`. */
  const COOKIE_WIDTHS: seq<nat> := [8, 2, 2, 4, 4, 4, 4, 2, 2, 4]

  function CookieNumbers(c: Cookie): (vs: seq<nat>)
    ensures Fit(vs, COOKIE_WIDTHS)
  {
    Powers();
    [c.mac, c.peerPort, c.localPort, c.peerTag, c.localTag, c.peerTsn, c.localTsn,
     c.incomingStreams, c.outgoingStreams, c.peerArwnd]
  }

  function PutCookie(c: Cookie): Bytes {
    PutNumbers(CookieNumbers(c), COOKIE_WIDTHS) + (PutAddress(c.initAddress) + PutAliases(c.aliases))
  }

  function PutStateCookie(c: StateCookie): Bytes {
    match c
    case Ours(cookie) => PutCookie(cookie)
    case Opaque(data) => data
  }

  // ----- parameters -----

  /** Type, length, value and padding of a parameter; the length field keeps the low 16 bits. */
  function ParamFrame(typ: u16, size: nat, value: Bytes, padding: nat): Bytes {
    Put(typ, 2) + (Put(size, 2) + (value + Zeros(padding)))
  }

  function PutSupported(s: SupportedAddrTypes): Bytes {
    (if s.ipv4 then Put(PARAM_IPV4_ADDR, 2) else []) + (if s.ipv6 then Put(PARAM_IPV6_ADDR, 2) else [])
  }

  function ParamSize(p: Param): nat {
    match p
    case IpV4Addr(_) => 8
    case IpV6Addr(_) => 20
    case CookiePreservative(_) => 8
    case HostNameDeprecated => 0
    case SupportedTypes(s) => SupportedSize(s)
    case StateCookieP(c) => PARAM_HEADER_SIZE + StateCookieSize(c)
    case UnrecognizedP(u) => PARAM_HEADER_SIZE + PARAM_HEADER_SIZE + |u.data|
  }

  function SerializeParam(p: Param): Bytes {
    match p
    case IpV4Addr(v) => ParamFrame(PARAM_IPV4_ADDR, 8, Put(v, 4), 0)
    case IpV6Addr(v) => ParamFrame(PARAM_IPV6_ADDR, 20, Put(v, 16), 0)
    case CookiePreservative(ms) => ParamFrame(PARAM_COOKIE_PRESERVATIVE, 8, Put(ms, 4), 0)
    case HostNameDeprecated => []
    case SupportedTypes(s) =>
      ParamFrame(PARAM_SUPPORTED_ADDRESSES, SupportedSize(s), PutSupported(s), PaddingNeeded(SupportedSize(s)))
    case StateCookieP(c) =>
      var size := PARAM_HEADER_SIZE + StateCookieSize(c);
      ParamFrame(PARAM_STATE_COOKIE, size, PutStateCookie(c), PaddingNeeded(size))
    case UnrecognizedP(u) =>
      ParamFrame(PARAM_UNRECOGNIZED, PARAM_HEADER_SIZE + PARAM_HEADER_SIZE + |u.data|,
                 Put(u.typ, 2) + (Put(PARAM_HEADER_SIZE + |u.data|, 2) + u.data), PaddingNeeded(|u.data|))
  }

  /** The address types that a parameter lists; unknown ones and an odd last byte are skipped. */
  function GetSupported(d: Bytes, s: SupportedAddrTypes): SupportedAddrTypes {
    if |d| < 2 then s
    else
      var typ := Read16(d);
      GetSupported(d[2..], if typ == PARAM_IPV4_ADDR then s.(ipv4 := true)
                           else if typ == PARAM_IPV6_ADDR then s.(ipv6 := true) else s)
  }

  /** What the two high bits of an unknown parameter type ask for. */
  function UnknownParam(typ: u16, data: Bytes): ParamError {
    UnrecognizedType((typ / 0x4000) % 2 == 1, typ / 0x4000 < 2, typ, data)
  }

  function ParamValue(typ: u16, value: Bytes, data: Bytes): Result<Param, ParamError> {
    if typ == PARAM_IPV4_ADDR then
      if |value| != 4 then Err(IllegalParam) else Ok(IpV4Addr(Read32(value)))
    else if typ == PARAM_IPV6_ADDR then
      if |value| != 16 then Err(IllegalParam) else Ok(IpV6Addr(Read128(value)))
    else if typ == PARAM_COOKIE_PRESERVATIVE then
      if |value| != 4 then Err(IllegalParam) else Ok(CookiePreservative(Read32(value)))
    else if typ == PARAM_HOSTNAME_DEPRECATED then Ok(HostNameDeprecated)
    else if typ == PARAM_SUPPORTED_ADDRESSES then
      Ok(SupportedTypes(GetSupported(value, SupportedAddrTypes(false, false))))
    else if typ == PARAM_STATE_COOKIE then Ok(StateCookieP(Opaque(value)))
    else if typ == PARAM_UNRECOGNIZED then
      if |value| < 4 then Err(IllegalParam)
      else
        var size: nat := Read16(value[2..]);
        if size != |value| && PaddedLen(size) != |value| then Err(IllegalParam)
        else Ok(UnrecognizedP(UnrecognizedParam(Read16(value), value[4..])))
    else Err(UnknownParam(typ, data))
  }

  /** The parameter at the front of `data`, and how many bytes to advance. */
  function ParseParam(data: Bytes): (r: (nat, Result<Param, ParamError>))
    ensures r.0 <= |data| && (data != [] ==> r.0 > 0)
  {
    if |data| < PARAM_HEADER_SIZE then (|data|, Err(ParamsDone))
    else
      var len: nat := Read16(data[2..]);
      if len > |data| || len < PARAM_HEADER_SIZE then (|data|, Err(IllegalParam))
      else (Min(PaddedLen(len), |data|), ParamValue(Read16(data), data[4..len], data))
  }

  // ----- INIT and INIT ACK -----

  /** What the parameter loops of INIT and INIT ACK collect. */
  datatype Parts = Parts(
    aliases: seq<TransportAddress>,
    unrecognized: seq<UnrecognizedParam>,
    preservative: Option<u32>,
    supported: Option<SupportedAddrTypes>,
    cookie: Option<StateCookie>)

  const NO_PARTS := Parts([], [], None, None, None)

  /** An INIT ignores cookies and reports of unrecognized parameters; an INIT ACK keeps them. */
  function Collect(parts: Parts, p: Param, isAck: bool): Parts {
    match p
    case IpV4Addr(v) => parts.(aliases := parts.aliases + [IpV4(v)])
    case IpV6Addr(v) => parts.(aliases := parts.aliases + [IpV6(v)])
    case SupportedTypes(s) => parts.(supported := Some(s))
    case HostNameDeprecated => parts
    case CookiePreservative(ms) => parts.(preservative := Some(ms))
    case UnrecognizedP(u) => if isAck then parts.(unrecognized := parts.unrecognized + [u]) else parts
    case StateCookieP(c) => if isAck then parts.(cookie := Some(c)) else parts
  }

  /** An INIT remembers the unknown parameters that ask to be reported; an INIT ACK does not. */
  function Report(parts: Parts, e: ParamError, isAck: bool): Parts {
    if e.UnrecognizedType? && e.report && !isAck
    then parts.(unrecognized := parts.unrecognized + [UnrecognizedParam(e.typ, e.data)])
    else parts
  }

  /** The parameter loop; `None` if a parameter is malformed. */
  function ParseParams(parts: Parts, data: Bytes, isAck: bool): Option<Parts>
    decreases |data|
  {
    if data == [] then Some(parts)
    else
      var (size, param) := ParseParam(data);
      match param
      case Ok(p) => ParseParams(Collect(parts, p, isAck), data[size..], isAck)
      case Err(ParamsDone) => Some(parts)
      case Err(IllegalParam) => None
      case Err(e) =>
        var reported := Report(parts, e, isAck);
        if e.stop then Some(reported) else ParseParams(reported, data[size..], isAck)
  }

  function PutInit(tag: u32, aRwnd: u32, outbound: u16, inbound: u16, tsn: u32, params: Bytes): Bytes {
    Put(tag, 4) + (Put(aRwnd, 4) + (Put(outbound, 2) + (Put(inbound, 2) + (Put(tsn, 4) + params))))
  }

  function PutAliasParams(aliases: seq<TransportAddress>): Bytes {
    if aliases == [] then []
    else
      var first := match aliases[0]
        case Fake(_) => []
        case IpV4(v) => SerializeParam(IpV4Addr(v))
        case IpV6(v) => SerializeParam(IpV6Addr(v));
      first + PutAliasParams(aliases[1..])
  }

  function PutUnrecognized(ps: seq<UnrecognizedParam>): Bytes {
    if ps == [] then [] else SerializeParam(UnrecognizedP(ps[0])) + PutUnrecognized(ps[1..])
  }

  function PutOptions(preservative: Option<u32>, supported: Option<SupportedAddrTypes>): Bytes {
    (if preservative.Some? then SerializeParam(CookiePreservative(preservative.value)) else [])
    + (if supported.Some? then SerializeParam(SupportedTypes(supported.value)) else [])
  }

  function InitParams(i: InitChunk): Bytes {
    PutAliasParams(i.aliases) + PutOptions(i.cookiePreservative, i.supportedAddrTypes)
  }

  function InitValue(i: InitChunk): Bytes {
    PutInit(i.initiateTag, i.aRwnd, i.outboundStreams, i.inboundStreams, i.initialTsn, InitParams(i))
  }

  function InitAckParams(i: InitAck): Bytes {
    SerializeParam(StateCookieP(i.cookie))
    + (PutAliasParams(i.aliases)
       + (PutUnrecognized(i.unrecognized) + PutOptions(i.cookiePreservative, i.supportedAddrTypes)))
  }

  function InitAckValue(i: InitAck): Bytes {
    PutInit(i.initiateTag, i.aRwnd, i.outboundStreams, i.inboundStreams, i.initialTsn, InitAckParams(i))
  }

  function ParseInit(d: Bytes): Option<InitChunk> {
    if |d| < 16 then None
    else
      match ParseParams(NO_PARTS, d[16..], false)
      case None => None
      case Some(p) =>
        Some(InitChunk(Read32(d), Read32(d[4..]), Read16(d[8..]), Read16(d[10..]), Read32(d[12..]),
                       p.unrecognized, p.aliases, p.preservative, p.supported))
  }

  function ParseInitAck(d: Bytes): Option<InitAck> {
    if |d| < 16 then None
    else
      match ParseParams(NO_PARTS, d[16..], true)
      case None => None
      case Some(p) =>
        if p.cookie.None? then None
        else
          Some(InitAck(Read32(d), Read32(d[4..]), Read16(d[8..]), Read16(d[10..]), Read32(d[12..]),
                       p.cookie.value, p.unrecognized, p.aliases, p.preservative, p.supported))
  }

  // ----- SACK -----

  function PutBlocks(bs: seq<(u16, u16)>): Bytes {
    if bs == [] then [] else Put(bs[0].0, 2) + (Put(bs[0].1, 2) + PutBlocks(bs[1..]))
  }

  function PutTsns(ts: seq<u32>): Bytes {
    if ts == [] then [] else Put(ts[0], 4) + PutTsns(ts[1..])
  }

  function SackValue(s: SelectiveAck): Bytes {
    Put(s.cumTsn, 4) + (Put(s.aRwnd, 4) + (Put(|s.blocks|, 2) + (Put(|s.duplicated|, 2)
    + (PutBlocks(s.blocks) + PutTsns(s.duplicated)))))
  }

  function GetBlocks(d: Bytes, n: nat): (bs: seq<(u16, u16)>)
    requires 4 * n <= |d|
    ensures |bs| == n
  {
    if n == 0 then [] else [(Read16(d), Read16(d[2..]))] + GetBlocks(d[4..], n - 1)
  }

  function GetTsns(d: Bytes, n: nat): (ts: seq<u32>)
    requires 4 * n <= |d|
    ensures |ts| == n
  {
    if n == 0 then [] else [Read32(d)] + GetTsns(d[4..], n - 1)
  }

  function ParseSack(d: Bytes): Option<SelectiveAck> {
    if |d| < 12 then None
    else
      var blocks: nat, dups: nat := Read16(d[8..]), Read16(d[10..]);
      if |d| - 12 < 4 * (blocks + dups) then None
      else Some(SelectiveAck(Read32(d), Read32(d[4..]), GetBlocks(d[12..], blocks),
                             GetTsns(d[12 + 4 * blocks..], dups)))
  }

  // ----- DATA -----

  function DataFlags(d: DataChunk): byte {
    (if d.immediate then 8 else 0) + (if d.unordered then 4 else 0) + (if d.begin then 2 else 0)
      + (if d.end then 1 else 0)
  }

  /** Whether the bit with this weight is set. */
  predicate Bit(flags: byte, weight: nat)
    requires weight > 0
  {
    (flags / weight) % 2 == 1
  }

  function DataValue(d: DataChunk): Bytes {
    Put(d.tsn, 4) + (Put(d.streamId, 2) + (Put(d.seqNum, 2) + (Put(d.ppid, 4) + d.buf)))
  }

  function ParseData(flags: byte, d: Bytes): Option<DataChunk> {
    if |d| < 13 then None
    else Some(DataChunk(Read32(d), Read16(d[4..]), Read16(d[6..]), Read32(d[8..]), d[12..],
                        Bit(flags, 8), Bit(flags, 4), Bit(flags, 2), Bit(flags, 1)))
  }

  // ----- chunks -----

  /** Type, flags, length, value and padding of a chunk; the length field keeps the low 16 bits. */
  function ChunkFrame(typ: byte, flags: byte, size: nat, value: Bytes, padding: nat): Bytes {
    [typ, flags] + (Put(size, 2) + (value + Zeros(padding)))
  }

  /** A chunk of `size` bytes whose padding follows from its own size. */
  function Framed(typ: byte, flags: byte, size: nat, value: Bytes): Bytes {
    ChunkFrame(typ, flags, size, value, PaddingNeeded(size))
  }

  function PutPadding(length: nat): Bytes {
    ChunkFrame(CHUNK_PAD, 0, PaddingChunkSize(length), Zeros(PaddedLen(length)), 0)
  }

  function PutOurBeat(typ: byte, probe: u32): Bytes {
    ChunkFrame(typ, 0, CHUNK_HEADER_SIZE + 8, Put(1, 2) + (Put(8, 2) + Put(probe, 4)), 0)
  }

  /** `Chunk::serialize`; an empty DATA chunk writes nothing, and the three kinds without a wire form write
      nothing either, as under the `fuzz` feature. */
  function SerializeChunk(c: Chunk): Bytes {
    match c
    case Data(d) => if d.buf == [] then [] else Framed(CHUNK_DATA, DataFlags(d), SerializedSize(c), DataValue(d))
    case Init(i) => Framed(CHUNK_INIT, 0, SerializedSize(c), InitValue(i))
    case InitAckChunk(i) => Framed(CHUNK_INIT_ACK, 0, SerializedSize(c), InitAckValue(i))
    case SAck(s) => Framed(CHUNK_SACK, 0, SerializedSize(c), SackValue(s))
    case HeartBeatChunk(OpaqueBeat(data)) => Framed(CHUNK_HEARTBEAT, 0, SerializedSize(c), data)
    case HeartBeatChunk(OurBeat(probe)) =>
      PutOurBeat(CHUNK_HEARTBEAT, probe) + (if probe > 0 then PutPadding(probe) else [])
    case HeartBeatAckChunk(OpaqueBeat(data)) => Framed(CHUNK_HEARTBEAT_ACK, 0, SerializedSize(c), data)
    case HeartBeatAckChunk(OurBeat(probe)) => PutOurBeat(CHUNK_HEARTBEAT_ACK, probe)
    case Abort(reflected, causes) => Framed(CHUNK_ABORT, if reflected then 1 else 0, SerializedSize(c), causes)
    case ShutDown(tsn) => ChunkFrame(CHUNK_SHUTDOWN, 0, 8, Put(tsn, 4), 0)
    case ShutDownAck => ChunkFrame(CHUNK_SHUTDOWN_ACK, 0, 4, [], 0)
    case StateCookieChunk(cookie) =>
      ChunkFrame(CHUNK_STATE_COOKIE, 0, SerializedSize(c), PutStateCookie(cookie),
                 PaddingNeeded(StateCookieSize(cookie)))
    case StateCookieAck => [CHUNK_STATE_COOKIE_ACK, 0, 0, 4]
    case ShutDownComplete(reflected) => ChunkFrame(CHUNK_SHUTDOWN_COMPLETE, if reflected then 1 else 0, 4, [], 0)
    case Padding(length) => PutPadding(length)
    case OpError => []
    case ReservedEcne => []
    case ReservedCwr => []
  }

  /** What the two high bits of an unknown chunk type ask for. */
  function UnknownChunk(typ: byte): ChunkError { Unrecognized((typ / 64) % 2 == 1, typ / 64 < 2) }

  function Accept<T>(parsed: Option<T>, make: T -> Chunk): Result<Chunk, ChunkError> {
    match parsed
    case Some(value) => Ok(make(value))
    case None => Err(IllegalFormat)
  }

  function ChunkValue(typ: byte, flags: byte, value: Bytes): Result<Chunk, ChunkError> {
    if typ == CHUNK_DATA then Accept(ParseData(flags, value), d => Data(d))
    else if typ == CHUNK_INIT then Accept(ParseInit(value), i => Init(i))
    else if typ == CHUNK_INIT_ACK then Accept(ParseInitAck(value), i => InitAckChunk(i))
    else if typ == CHUNK_SACK then Accept(ParseSack(value), s => SAck(s))
    else if typ == CHUNK_HEARTBEAT then Ok(HeartBeatChunk(OpaqueBeat(value)))
    else if typ == CHUNK_HEARTBEAT_ACK then Ok(HeartBeatAckChunk(OpaqueBeat(value)))
    else if typ == CHUNK_ABORT then Ok(Abort(Bit(flags, 1), value))
    else if typ == CHUNK_SHUTDOWN then if |value| != 4 then Err(IllegalFormat) else Ok(ShutDown(Read32(value)))
    else if typ == CHUNK_SHUTDOWN_ACK then if value != [] then Err(IllegalFormat) else Ok(ShutDownAck)
    else if typ == CHUNK_OP_ERROR then Ok(OpError)
    else if typ == CHUNK_STATE_COOKIE then Ok(StateCookieChunk(Opaque(value)))
    else if typ == CHUNK_STATE_COOKIE_ACK then if value != [] then Err(IllegalFormat) else Ok(StateCookieAck)
    else if typ == CHUNK_RESERVED_ECNE then Ok(ReservedEcne)
    else if typ == CHUNK_RESERVED_CWR then Ok(ReservedCwr)
    else if typ == CHUNK_SHUTDOWN_COMPLETE then
      if value != [] then Err(IllegalFormat) else Ok(ShutDownComplete(Bit(flags, 1)))
    else if typ == CHUNK_PAD then Ok(Padding(|value|))
    else Err(UnknownChunk(typ))
  }

  /** The chunk at the front of `data`, and how many bytes to advance: at least one and no more than there are. */
  function ParseChunk(data: Bytes): (r: (nat, Result<Chunk, ChunkError>))
    ensures r.0 <= |data| && (data != [] ==> r.0 > 0)
  {
    if |data| < CHUNK_HEADER_SIZE then (|data|, Err(Done))
    else
      var len: nat := Read16(data[2..]);
      if len > |data| || len < CHUNK_HEADER_SIZE then (|data|, Err(IllegalFormat))
      else (Min(PaddedLen(len), |data|), ChunkValue(data[0], data[1], data[4..len]))
  }

  // ----- packet bodies -----

  /** Whether the loop over a packet body goes on after this result. */
  predicate GoesOn(chunk: Result<Chunk, ChunkError>) {
    chunk.Ok? || (chunk.error.Unrecognized? && !chunk.error.stop)
  }

  /** Everything that the parse-and-advance loop sees in a packet body, up to the point where it stops. */
  function Scan(data: Bytes): seq<Result<Chunk, ChunkError>>
    decreases |data|
  {
    if data == [] then []
    else
      var (size, chunk) := ParseChunk(data);
      [chunk] + (if GoesOn(chunk) then Scan(data[size..]) else [])
  }

  function SerializeAll(cs: seq<Chunk>): Bytes {
    if cs == [] then [] else SerializeChunk(cs[0]) + SerializeAll(cs[1..])
  }

  // ----- the cookie comes back -----

  datatype CookieResult = Parsed(cookie: Cookie) | Rejected | ParsePanicked

  /** The aliases at the end of a cookie; up to four bytes that fit no address are ignored. */
  function GetAliases(aliases: seq<TransportAddress>, d: Bytes): Option<seq<TransportAddress>>
    decreases |d|
  {
    if |d| < 5 then Some(aliases)
    else if d[0] == 1 then GetAliases(aliases + [IpV4(Read32(d[1..]))], d[5..])
    else if d[0] == 2 && |d| >= 17 then GetAliases(aliases + [IpV6(Read128(d[1..]))], d[17..])
    else None
  }

  /** An address with its tag byte, and what follows it. */
  function GetAddress(d: Bytes): Option<(TransportAddress, Bytes)>
    requires d != []
  {
    if d[0] == 0 && |d| >= 9 then Some((Fake(Read64(d[1..])), d[9..]))
    else if d[0] == 1 && |d| >= 5 then Some((IpV4(Read32(d[1..])), d[5..]))
    else if d[0] == 2 && |d| >= 17 then Some((IpV6(Read128(d[1..])), d[17..]))
    else None
  }

  /** The cookie with these numbers and addresses. */
  function MakeCookie(vs: seq<nat>, address: TransportAddress, aliases: seq<TransportAddress>): Cookie
    requires Fit(vs, COOKIE_WIDTHS)
  {
    Powers();
    Cookie(vs[0], address, vs[1], vs[2], aliases, vs[4], vs[3], vs[6], vs[5], vs[7], vs[8], vs[9])
  }

  /** `Cookie::parse`: after one check of the length the numbers and the tag of the address are read without looking
      whether there are any bytes left, and reading past the end panics. */
  function ParseCookie(d: Bytes): CookieResult {
    if |d| < 33 then Rejected
    else
      match TakeNumbers(d, COOKIE_WIDTHS)
      case None => ParsePanicked
      case Some((numbers, rest)) =>
        if rest == [] then ParsePanicked
        else
          match GetAddress(rest)
          case None => Rejected
          case Some((address, more)) =>
            match GetAliases([], more)
            case None => Rejected
            case Some(aliases) => Parsed(MakeCookie(numbers, address, aliases))
  }

  function MakeOurs(c: StateCookie): CookieResult {
    match c
    case Ours(cookie) => Parsed(cookie)
    case Opaque(data) => ParseCookie(data)
  }
}
