/** Which bytes stand where: the chunk formats of section 3.3 of RFC 9260, byte by byte. */
module WireLayout {
  import opened Basics
  import opened BigEndian
  import opened Chunks
  import opened Wire
  import opened WireRoundTrip

  /** The two bytes from `i` on are `v` in network byte order. */
  predicate Holds16(b: Bytes, i: nat, v: nat) { i + 2 <= |b| && b[i] as int * 0x100 + b[i + 1] == v }

  predicate Holds32(b: Bytes, i: nat, v: nat) {
    i + 4 <= |b| && b[i] as int * 0x100_0000 + b[i + 1] as int * 0x1_0000 + b[i + 2] as int * 0x100 + b[i + 3] == v
  }

  lemma {:induction false} GetSnoc(s: Bytes, x: byte)
    ensures Get(s + [x]) == 256 * Get(s) + x
  {
    assert (s + [x])[..|s|] == s;
  }

  lemma {:induction false} Reads16(b: Bytes, i: nat)
    requires i + 2 <= |b|
    ensures Holds16(b, i, Read16(b[i..]))
  {
    GetSnoc([], b[i]);
    GetSnoc([b[i]], b[i + 1]);
    assert b[i..][..2] == [b[i]] + [b[i + 1]] && [] + [b[i]] == [b[i]];
  }

  lemma {:induction false} Reads32(b: Bytes, i: nat)
    requires i + 4 <= |b|
    ensures Holds32(b, i, Read32(b[i..]))
  {
    var d := b[i..][..2];
    Reads16(b, i);
    GetSnoc(d, b[i + 2]);
    GetSnoc(d + [b[i + 2]], b[i + 3]);
    assert b[i..][..4] == d + [b[i + 2]] + [b[i + 3]];
  }

  // ----- frames -----

  /** Type, flags and length of a chunk, and its value from the fourth byte on; padded to a multiple of four. */
  predicate IsLaidOut(b: Bytes, typ: nat, flags: nat, size: nat, value: Bytes) {
    && 4 + |value| <= |b| && b[0] == typ && b[1] == flags && Holds16(b, 2, size)
    && b[4..4 + |value|] == value && |b| % 4 == 0 && size <= |b| < size + 4
  }

  lemma {:induction false} FrameLayout(typ: byte, flags: byte, size: nat, value: Bytes)
    requires size == 4 + |value| && size < TWO16
    ensures IsLaidOut(Framed(typ, flags, size, value), typ, flags, size, value)
  {
    var b := Framed(typ, flags, size, value);
    assert b[2..] == Put(size, 2) + (value + Zeros(PaddingNeeded(size)));
    ReadPut16(size, value + Zeros(PaddingNeeded(size)));
    Reads16(b, 2);
    assert b[4..] == value + Zeros(PaddingNeeded(size));
  }

  lemma {:induction false} InValue16(b: Bytes, value: Bytes, i: nat)
    requires 4 + |value| <= |b| && b[4..4 + |value|] == value && i + 2 <= |value|
    ensures Holds16(b, 4 + i, Read16(value[i..]))
  {
    Reads16(value, i);
    assert forall j :: 0 <= j < |value| ==> b[4 + j] == value[j];
  }

  lemma {:induction false} InValue32(b: Bytes, value: Bytes, i: nat)
    requires 4 + |value| <= |b| && b[4..4 + |value|] == value && i + 4 <= |value|
    ensures Holds32(b, 4 + i, Read32(value[i..]))
  {
    Reads32(value, i);
    assert forall j :: 0 <= j < |value| ==> b[4 + j] == value[j];
  }

  // ----- the types -----

  /** Section 3.2 of RFC 9260. */
  function TypeCode(c: Chunk): nat {
    match c
    case Data(_) => 0
    case Init(_) => 1
    case InitAckChunk(_) => 2
    case SAck(_) => 3
    case HeartBeatChunk(_) => 4
    case HeartBeatAckChunk(_) => 5
    case Abort(_, _) => 6
    case ShutDown(_) => 7
    case ShutDownAck => 8
    case OpError => 9
    case StateCookieChunk(_) => 10
    case StateCookieAck => 11
    case ReservedEcne => 12
    case ReservedCwr => 13
    case ShutDownComplete(_) => 14
    case Padding(_) => 132
  }

  lemma {:induction false} FrameHasType(c: Chunk, typ: byte, flags: byte, value: Bytes)
    requires Plain(c) && IsFrameOf(c, typ, flags, value)
    ensures typ == TypeCode(c)
  {}

  /** Every plain chunk starts with its type and its length, and fills whole words. */
  lemma {:induction false} ChunkLayout(c: Chunk)
    requires Plain(c)
    ensures exists flags, value :: IsLaidOut(SerializeChunk(c), TypeCode(c), flags, SerializedSize(c), value)
  {
    IsFramed(c);
    var typ, flags, value :| IsFrameOf(c, typ, flags, value);
    FrameHasType(c, typ, flags, value);
    FrameLayout(typ, flags, SerializedSize(c), value);
  }

  // ----- the values -----

  /** Section 3.3.1: flags I, U, B and E, then TSN, stream, sequence number, protocol identifier and payload. */
  lemma {:induction false} DataLayout(d: DataChunk)
    requires Plain(Data(d))
    ensures var b := SerializeChunk(Data(d));
      && |b| >= 16 + |d.buf| && b[0] == 0 && Holds16(b, 2, 16 + |d.buf|)
      && (Bit(b[1], 8) <==> d.immediate) && (Bit(b[1], 4) <==> d.unordered)
      && (Bit(b[1], 2) <==> d.begin) && (Bit(b[1], 1) <==> d.end) && b[1] < 16
      && Holds32(b, 4, d.tsn) && Holds16(b, 8, d.streamId) && Holds16(b, 10, d.seqNum) && Holds32(b, 12, d.ppid)
      && b[16..16 + |d.buf|] == d.buf
  {
    var b, value := SerializeChunk(Data(d)), DataValue(d);
    DataRoundTrip(d);
    FrameLayout(CHUNK_DATA, DataFlags(d), 16 + |d.buf|, value);
    assert value[0..] == value;
    InValue32(b, value, 0);
    InValue16(b, value, 4);
    InValue16(b, value, 6);
    InValue32(b, value, 8);
    assert b[16..16 + |d.buf|] == b[4..4 + |value|][12..];
  }

  /** Sections 3.3.2 and 3.3.3: tag, receive window, streams out and in, initial TSN. */
  predicate IsInit(b: Bytes, tag: u32, aRwnd: u32, outbound: u16, inbound: u16, tsn: u32) {
    Holds32(b, 4, tag) && Holds32(b, 8, aRwnd) && Holds16(b, 12, outbound) && Holds16(b, 14, inbound)
    && Holds32(b, 16, tsn)
  }

  lemma {:induction false} InitHeaderLayout(b: Bytes, value: Bytes)
    requires 4 + |value| <= |b| && b[4..4 + |value|] == value && 16 <= |value|
    ensures IsInit(b, Read32(value), Read32(value[4..]), Read16(value[8..]), Read16(value[10..]), Read32(value[12..]))
  {
    assert value[0..] == value;
    InValue32(b, value, 0);
    InValue32(b, value, 4);
    InValue16(b, value, 8);
    InValue16(b, value, 10);
    InValue32(b, value, 12);
  }

  lemma {:induction false} InitLayout(i: InitChunk)
    requires Plain(Init(i))
    ensures var b := SerializeChunk(Init(i));
      |b| > 0 && b[0] == 1 && IsInit(b, i.initiateTag, i.aRwnd, i.outboundStreams, i.inboundStreams, i.initialTsn)
  {
    FrameOfInit(Init(i));
    FrameLayout(CHUNK_INIT, 0, SerializedSize(Init(i)), InitValue(i));
    InitRoundTrip(i);
    InitHeaderLayout(SerializeChunk(Init(i)), InitValue(i));
  }

  lemma {:induction false} InitAckLayout(i: InitAck)
    requires Plain(InitAckChunk(i))
    ensures var b := SerializeChunk(InitAckChunk(i));
      |b| > 0 && b[0] == 2 && IsInit(b, i.initiateTag, i.aRwnd, i.outboundStreams, i.inboundStreams, i.initialTsn)
  {
    FrameOfInit(InitAckChunk(i));
    FrameLayout(CHUNK_INIT_ACK, 0, SerializedSize(InitAckChunk(i)), InitAckValue(i));
    UnrecognizedAreShort(i.unrecognized, TWO16);
    InitAckRoundTrip(i);
    InitHeaderLayout(SerializeChunk(InitAckChunk(i)), InitAckValue(i));
  }

  lemma {:induction false} BlockAt(d: Bytes, n: nat, i: nat)
    requires 4 * n <= |d| && i < n
    ensures Read16(d[4 * i..]) == GetBlocks(d, n)[i].0 && Read16(d[4 * i + 2..]) == GetBlocks(d, n)[i].1
  {
    if i == 0 {
      assert d[0..] == d;
    } else {
      BlockAt(d[4..], n - 1, i - 1);
      assert d[4..][4 * (i - 1)..] == d[4 * i..] && d[4..][4 * (i - 1) + 2..] == d[4 * i + 2..];
    }
  }

  lemma {:induction false} TsnAt(d: Bytes, n: nat, i: nat)
    requires 4 * n <= |d| && i < n
    ensures Read32(d[4 * i..]) == GetTsns(d, n)[i]
  {
    if i == 0 {
      assert d[0..] == d;
    } else {
      TsnAt(d[4..], n - 1, i - 1);
      assert d[4..][4 * (i - 1)..] == d[4 * i..];
    }
  }

  /** What the value of a SACK holds, as the parser reads it. */
  ghost predicate IsSackValue(d: Bytes, s: SelectiveAck) {
    && |d| == 12 + 4 * |s.blocks| + 4 * |s.duplicated| && Read32(d) == s.cumTsn && Read32(d[4..]) == s.aRwnd
    && Read16(d[8..]) == |s.blocks| && Read16(d[10..]) == |s.duplicated|
    && GetBlocks(d[12..], |s.blocks|) == s.blocks && GetTsns(d[12 + 4 * |s.blocks|..], |s.duplicated|) == s.duplicated
  }

  lemma {:induction false} ParsedIsSackValue(d: Bytes, s: SelectiveAck)
    requires ParseSack(d) == Some(s) && |d| == 12 + 4 * |s.blocks| + 4 * |s.duplicated|
    ensures IsSackValue(d, s)
  {}

  lemma {:induction false} SackIsLaidOut(s: SelectiveAck)
    requires Plain(SAck(s))
    ensures IsSackValue(SackValue(s), s)
    ensures IsLaidOut(SerializeChunk(SAck(s)), 3, 0, SerializedSize(SAck(s)), SackValue(s))
  {
    FrameOfSack(SAck(s));
    FrameLayout(CHUNK_SACK, 0, SerializedSize(SAck(s)), SackValue(s));
    SackRoundTrip(s);
    ParsedIsSackValue(SackValue(s), s);
  }

  lemma {:induction false} SackHeaderLayout(b: Bytes, d: Bytes, s: SelectiveAck)
    requires IsSackValue(d, s) && 4 + |d| <= |b| && b[4..4 + |d|] == d
    ensures Holds32(b, 4, s.cumTsn) && Holds32(b, 8, s.aRwnd)
    ensures Holds16(b, 12, |s.blocks|) && Holds16(b, 14, |s.duplicated|)
  {
    assert d[0..] == d;
    InValue32(b, d, 0);
    InValue32(b, d, 4);
    InValue16(b, d, 8);
    InValue16(b, d, 10);
  }

  lemma {:induction false} SackBlockLayout(b: Bytes, d: Bytes, s: SelectiveAck, i: nat)
    requires IsSackValue(d, s) && 4 + |d| <= |b| && b[4..4 + |d|] == d && i < |s.blocks|
    ensures Holds16(b, 16 + 4 * i, s.blocks[i].0) && Holds16(b, 18 + 4 * i, s.blocks[i].1)
  {
    BlockAt(d[12..], |s.blocks|, i);
    assert d[12..][4 * i..] == d[12 + 4 * i..] && d[12..][4 * i + 2..] == d[14 + 4 * i..];
    InValue16(b, d, 12 + 4 * i);
    InValue16(b, d, 14 + 4 * i);
  }

  lemma {:induction false} SackDuplicateLayout(b: Bytes, d: Bytes, s: SelectiveAck, i: nat)
    requires IsSackValue(d, s) && 4 + |d| <= |b| && b[4..4 + |d|] == d && i < |s.duplicated|
    ensures Holds32(b, 16 + 4 * |s.blocks| + 4 * i, s.duplicated[i])
  {
    var start := 12 + 4 * |s.blocks|;
    TsnAt(d[start..], |s.duplicated|, i);
    assert d[start..][4 * i..] == d[start + 4 * i..];
    InValue32(b, d, start + 4 * i);
  }

  lemma {:induction false} SackListsLayout(b: Bytes, d: Bytes, s: SelectiveAck)
    requires IsSackValue(d, s) && 4 + |d| <= |b| && b[4..4 + |d|] == d
    ensures forall i :: 0 <= i < |s.blocks| ==>
      Holds16(b, 16 + 4 * i, s.blocks[i].0) && Holds16(b, 18 + 4 * i, s.blocks[i].1)
    ensures forall i :: 0 <= i < |s.duplicated| ==> Holds32(b, 16 + 4 * |s.blocks| + 4 * i, s.duplicated[i])
  {
    forall i | 0 <= i < |s.blocks|
      ensures Holds16(b, 16 + 4 * i, s.blocks[i].0) && Holds16(b, 18 + 4 * i, s.blocks[i].1)
    {
      SackBlockLayout(b, d, s, i);
    }
    forall i | 0 <= i < |s.duplicated| ensures Holds32(b, 16 + 4 * |s.blocks| + 4 * i, s.duplicated[i]) {
      SackDuplicateLayout(b, d, s, i);
    }
  }

  /** Section 3.3.4: cumulative TSN, receive window, the numbers of blocks and duplicates, and all of these. */
  lemma {:induction false} SackLayout(s: SelectiveAck)
    requires Plain(SAck(s))
    ensures var b := SerializeChunk(SAck(s));
      && |b| > 0 && b[0] == 3 && Holds32(b, 4, s.cumTsn) && Holds32(b, 8, s.aRwnd)
      && Holds16(b, 12, |s.blocks|) && Holds16(b, 14, |s.duplicated|)
      && (forall i :: 0 <= i < |s.blocks| ==>
            Holds16(b, 16 + 4 * i, s.blocks[i].0) && Holds16(b, 18 + 4 * i, s.blocks[i].1))
      && (forall i :: 0 <= i < |s.duplicated| ==> Holds32(b, 16 + 4 * |s.blocks| + 4 * i, s.duplicated[i]))
  {
    var b, d := SerializeChunk(SAck(s)), SackValue(s);
    SackIsLaidOut(s);
    SackHeaderLayout(b, d, s);
    SackListsLayout(b, d, s);
  }

  /** Section 3.3.8: the cumulative TSN. */
  lemma {:induction false} ShutdownLayout(tsn: u32)
    ensures var b := SerializeChunk(ShutDown(tsn)); |b| == 8 && b[0] == 7 && Holds16(b, 2, 8) && Holds32(b, 4, tsn)
  {
    FrameOfShutdown(ShutDown(tsn));
    FrameLayout(CHUNK_SHUTDOWN, 0, 8, Put(tsn, 4));
    ReadPut32(tsn, []);
    AppendNothing(Put(tsn, 4));
    assert Put(tsn, 4)[0..] == Put(tsn, 4);
    InValue32(SerializeChunk(ShutDown(tsn)), Put(tsn, 4), 0);
  }

  // ----- parameters -----

  /** Section 3.3.2.1 and 3.3.3.1 of RFC 9260. */
  function ParamCode(p: Param): nat {
    match p
    case IpV4Addr(_) => 5
    case IpV6Addr(_) => 6
    case StateCookieP(_) => 7
    case UnrecognizedP(_) => 8
    case CookiePreservative(_) => 9
    case HostNameDeprecated => 11
    case SupportedTypes(_) => 12
  }

  lemma {:induction false} ParamFrameLayout(typ: u16, size: u16, value: Bytes, padding: nat)
    ensures var b := ParamFrame(typ, size, value, padding);
      Holds16(b, 0, typ) && Holds16(b, 2, size) && 4 + |value| <= |b| && b[4..4 + |value|] == value
  {
    var b, rest := ParamFrame(typ, size, value, padding), value + Zeros(padding);
    ReadPut16(typ, Put(size, 2) + rest);
    ReadPut16(size, rest);
    assert b[0..] == b && b[2..] == Put(size, 2) + rest;
    assert b[4..] == b[2..][2..] == rest;
    Reads16(b, 0);
    Reads16(b, 2);
  }

  /** Every plain parameter starts with its type and its length. */
  lemma {:induction false} ParamLayout(p: Param)
    requires PlainParam(p)
    ensures Holds16(SerializeParam(p), 0, ParamCode(p)) && Holds16(SerializeParam(p), 2, ParamSize(p))
  {
    match p
    case IpV4Addr(v) => ParamFrameLayout(PARAM_IPV4_ADDR, 8, Put(v, 4), 0);
    case IpV6Addr(v) => ParamFrameLayout(PARAM_IPV6_ADDR, 20, Put(v, 16), 0);
    case CookiePreservative(ms) => ParamFrameLayout(PARAM_COOKIE_PRESERVATIVE, 8, Put(ms, 4), 0);
    case SupportedTypes(s) =>
      ParamFrameLayout(PARAM_SUPPORTED_ADDRESSES, SupportedSize(s), PutSupported(s), PaddingNeeded(SupportedSize(s)));
    case StateCookieP(c) =>
      ParamFrameLayout(PARAM_STATE_COOKIE, ParamSize(p), PutStateCookie(c), PaddingNeeded(ParamSize(p)));
    case UnrecognizedP(u) =>
      ParamFrameLayout(PARAM_UNRECOGNIZED, ParamSize(p),
                       Put(u.typ, 2) + (Put(PARAM_HEADER_SIZE + |u.data|, 2) + u.data), PaddingNeeded(|u.data|));
  }

  /** The parameter types that the parser knows. */
  predicate KnownParam(typ: u16) { 5 <= typ <= 9 || typ == 11 || typ == 12 }

  /** Section 3.2.1: the highest bit of an unknown parameter type says whether the parameters behind it are read, the
      next one whether it is reported; only an INIT collects reports. */
  lemma {:induction false} UnknownParamDecides(parts: Parts, typ: u16, rest: Bytes, isAck: bool)
    requires !KnownParam(typ)
    ensures var data := Put(typ, 2) + (Put(4, 2) + rest);
      var reports := !isAck && (0x4000 <= typ < 0x8000 || 0xC000 <= typ);
      var known :=
        if reports then parts.(unrecognized := parts.unrecognized + [UnrecognizedParam(typ, data)]) else parts;
      ParseParams(parts, data, isAck) == if typ < 0x8000 then Some(known) else ParseParams(known, rest, isAck)
  {
    var data := Put(typ, 2) + (Put(4, 2) + rest);
    ReadPut16(typ, Put(4, 2) + rest);
    ReadPut16(4, rest);
    assert data[4..] == data[2..][2..] == rest;
    assert ParseParam(data) == (4, Err(UnknownParam(typ, data)));
  }
}
