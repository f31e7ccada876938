/** The chunks, parameters and notifications that the endpoints exchange. */
module Chunks {
  import opened Basics

  /** `TransportAddress` with `u64` as the type of fake addresses. */
  datatype TransportAddress = IpV4(v4: u32) | IpV6(v6: u128) | Fake(fake: u64)

  datatype DataChunk = DataChunk(
    tsn: u32,
    streamId: u16,
    seqNum: u16,
    ppid: u32,
    buf: Bytes,
    immediate: bool,
    unordered: bool,
    begin: bool,
    end: bool)

  datatype SelectiveAck = SelectiveAck(
    cumTsn: u32,
    aRwnd: u32,
    blocks: seq<(u16, u16)>,
    duplicated: seq<u32>)

  datatype HeartBeat = OpaqueBeat(data: Bytes) | OurBeat(pmtuProbe: u32)

  datatype Cookie = Cookie(
    mac: u64,
    initAddress: TransportAddress,
    peerPort: u16,
    localPort: u16,
    aliases: seq<TransportAddress>,
    localTag: u32,
    peerTag: u32,
    localTsn: u32,
    peerTsn: u32,
    incomingStreams: u16,
    outgoingStreams: u16,
    peerArwnd: u32)

  datatype StateCookie = Ours(cookie: Cookie) | Opaque(data: Bytes)

  datatype UnrecognizedParam = UnrecognizedParam(typ: u16, data: Bytes)

  datatype SupportedAddrTypes = SupportedAddrTypes(ipv4: bool, ipv6: bool)

  /** `cookiePreservative` is a duration in milliseconds. */
  datatype InitChunk = InitChunk(
    initiateTag: u32,
    aRwnd: u32,
    outboundStreams: u16,
    inboundStreams: u16,
    initialTsn: u32,
    unrecognized: seq<UnrecognizedParam>,
    aliases: seq<TransportAddress>,
    cookiePreservative: Option<u32>,
    supportedAddrTypes: Option<SupportedAddrTypes>)

  datatype InitAck = InitAck(
    initiateTag: u32,
    aRwnd: u32,
    outboundStreams: u16,
    inboundStreams: u16,
    initialTsn: u32,
    cookie: StateCookie,
    unrecognized: seq<UnrecognizedParam>,
    aliases: seq<TransportAddress>,
    cookiePreservative: Option<u32>,
    supportedAddrTypes: Option<SupportedAddrTypes>)

  datatype Chunk =
    | Data(data: DataChunk)
    | Init(init: InitChunk)
    | InitAckChunk(ack: InitAck)
    | SAck(sack: SelectiveAck)
    | HeartBeatChunk(beat: HeartBeat)
    | HeartBeatAckChunk(beatAck: HeartBeat)
    | Abort(reflected: bool, errorCauses: Bytes)
    | ShutDown(cumTsn: u32)
    | ShutDownAck
    | OpError
    | StateCookieChunk(cookie: StateCookie)
    | StateCookieAck
    | ReservedEcne
    | ReservedCwr
    | ShutDownComplete(reflectedComplete: bool)
    | Padding(length: nat)

  datatype ShutdownState =
    | TryingTo
    | ShutdownSent
    | ShutdownReceived
    | ShutdownAckSent
    | Complete
    | AbortReceived

  /** What a receiver hands to the transmitter of the same endpoint; `at` is a time in nanoseconds. */
  datatype TxNotification =
    | Send(chunk: Chunk)
    | PeerSAck(sack: SelectiveAck, at: nat)
    | PeerAbort
    | Shutdown
    | PeerShutdown
    | PeerShutdownAck
    | PeerShutdownComplete
    | PeerHeartBeatAck(beatAck: HeartBeat, at: nat)
    | PrimaryPathChanged(address: TransportAddress)

  // ----- sizes -----

  const CHUNK_HEADER_SIZE: nat := 4
  const PARAM_HEADER_SIZE: nat := 4

  function PaddedLen(size: nat): nat { ((size + 3) / 4) * 4 }

  function PaddingNeeded(size: nat): nat { (4 - size % 4) % 4 }

  lemma {:induction false} PaddingFillsUp(size: nat)
    ensures PaddedLen(size) == size + PaddingNeeded(size)
    ensures PaddedLen(size) % 4 == 0
    ensures PaddingNeeded(size + 4) == PaddingNeeded(size)
    ensures size % 4 == 0 ==> PaddingNeeded(size) == 0
  {}

  /** An alias costs a tag byte and the address; fake aliases are not written. */
  function AliasSize(a: TransportAddress): nat {
    match a
    case IpV4(_) => 1 + 4
    case IpV6(_) => 1 + 16
    case Fake(_) => 0
  }

  function AliasesSize(aliases: seq<TransportAddress>): nat {
    if aliases == [] then 0 else AliasSize(aliases[0]) + AliasesSize(aliases[1..])
  }

  function CookieSize(c: Cookie): nat {
    36 + (match c.initAddress case IpV4(_) => 5 case IpV6(_) => 17 case Fake(_) => 9) + AliasesSize(c.aliases)
  }

  function StateCookieSize(c: StateCookie): nat {
    match c
    case Ours(cookie) => CookieSize(cookie)
    case Opaque(data) => |data|
  }

  function AliasParamSize(a: TransportAddress): nat {
    match a
    case IpV4(_) => 8
    case IpV6(_) => 20
    case Fake(_) => 0
  }

  function AliasParamsSize(aliases: seq<TransportAddress>): nat {
    if aliases == [] then 0 else AliasParamSize(aliases[0]) + AliasParamsSize(aliases[1..])
  }

  function SupportedSize(s: SupportedAddrTypes): nat {
    PARAM_HEADER_SIZE + (if s.ipv4 then 2 else 0) + (if s.ipv6 then 2 else 0)
  }

  function OptionsSize(preservative: Option<u32>, supported: Option<SupportedAddrTypes>): nat {
    (if preservative.Some? then 8 else 0) + (if supported.Some? then PaddedLen(SupportedSize(supported.value)) else 0)
  }

  function UnrecognizedSize(ps: seq<UnrecognizedParam>): nat {
    if ps == [] then 0 else PaddedLen(PARAM_HEADER_SIZE + PARAM_HEADER_SIZE + |ps[0].data|) + UnrecognizedSize(ps[1..])
  }

  function InitSize(i: InitChunk): nat {
    CHUNK_HEADER_SIZE + 16 + AliasParamsSize(i.aliases) + OptionsSize(i.cookiePreservative, i.supportedAddrTypes)
  }

  function InitAckSize(i: InitAck): nat {
    CHUNK_HEADER_SIZE + 16 + PARAM_HEADER_SIZE + PaddedLen(StateCookieSize(i.cookie))
    + AliasParamsSize(i.aliases) + OptionsSize(i.cookiePreservative, i.supportedAddrTypes)
    + UnrecognizedSize(i.unrecognized)
  }

  function PaddingChunkSize(length: nat): nat { CHUNK_HEADER_SIZE + PaddedLen(length) }

  /** `Chunk::serialized_size`; the three kinds that have no wire form count as 0, as under the `fuzz` feature. */
  function SerializedSize(c: Chunk): nat {
    match c
    case Data(d) => 16 + |d.buf|
    case Init(i) => InitSize(i)
    case InitAckChunk(i) => InitAckSize(i)
    case SAck(s) => CHUNK_HEADER_SIZE + 12 + 4 * |s.blocks| + 4 * |s.duplicated|
    case HeartBeatChunk(OpaqueBeat(data)) => |data| + CHUNK_HEADER_SIZE
    case HeartBeatChunk(OurBeat(probe)) => CHUNK_HEADER_SIZE + 8 + (if probe > 0 then PaddingChunkSize(probe) else 0)
    case HeartBeatAckChunk(OpaqueBeat(data)) => |data| + CHUNK_HEADER_SIZE
    case HeartBeatAckChunk(OurBeat(_)) => CHUNK_HEADER_SIZE + 8
    case Abort(_, causes) => CHUNK_HEADER_SIZE + |causes|
    case ShutDown(_) => CHUNK_HEADER_SIZE + 4
    case ShutDownAck => CHUNK_HEADER_SIZE
    case StateCookieChunk(cookie) => CHUNK_HEADER_SIZE + StateCookieSize(cookie)
    case StateCookieAck => 4
    case ShutDownComplete(_) => CHUNK_HEADER_SIZE
    case Padding(length) => PaddingChunkSize(length)
    case OpError => 0
    case ReservedEcne => 0
    case ReservedCwr => 0
  }

  // ----- payload bytes -----

  /** Payload bytes of a list of data chunks. */
  function PayloadBytes(cs: seq<DataChunk>): nat {
    if cs == [] then 0 else PayloadBytes(cs[..|cs| - 1]) + |cs[|cs| - 1].buf|
  }

  lemma {:induction false} PayloadBytesConcat(a: seq<DataChunk>, b: seq<DataChunk>)
    ensures PayloadBytes(a + b) == PayloadBytes(a) + PayloadBytes(b)
  {
    if b == [] {
      assert a + b == a;
    } else {
      assert (a + b)[..|a + b| - 1] == a + b[..|b| - 1];
      PayloadBytesConcat(a, b[..|b| - 1]);
    }
  }

  lemma {:induction false} PayloadBytesHead(cs: seq<DataChunk>)
    requires cs != []
    ensures PayloadBytes(cs) == |cs[0].buf| + PayloadBytes(cs[1..])
  {
    assert cs == [cs[0]] + cs[1..];
    PayloadBytesConcat([cs[0]], cs[1..]);
  }
}
