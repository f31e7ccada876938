/** Whatever is serialized parses back, alone or as part of a packet body. */
module WireRoundTrip {
  import opened Basics
  import opened Chunks
  import opened BigEndian
  import opened Wire

  // ----- frames -----

  /** A frame whose length field is its real length parses to its type, flags and value, and the parser
      advances right to what follows the padding. */
  lemma {:induction false} ParseFramed(typ: byte, flags: byte, size: nat, value: Bytes, tail: Bytes)
    requires size == 4 + |value| < TWO16
    ensures var f := Framed(typ, flags, size, value);
      && |f| == PaddedLen(size)
      && ParseChunk(f + tail) == (|f|, ChunkValue(typ, flags, value)) && (f + tail)[|f|..] == tail
  {
    var f := Framed(typ, flags, size, value);
    var d := f + tail;
    PaddingFillsUp(size);
    ReadPut16(size, value + Zeros(PaddingNeeded(size)) + tail);
    assert d[2..] == Put(size, 2) + (value + Zeros(PaddingNeeded(size)) + tail);
    assert d[4..size] == value;
  }

  lemma {:induction false} ParseParamFrame(typ: u16, size: nat, value: Bytes, padding: nat, tail: Bytes)
    requires size == 4 + |value| < TWO16 && padding == PaddingNeeded(size)
    ensures var f := ParamFrame(typ, size, value, padding);
      && |f| == PaddedLen(size)
      && ParseParam(f + tail) == (|f|, ParamValue(typ, value, f + tail)) && (f + tail)[|f|..] == tail
  {
    var f := ParamFrame(typ, size, value, padding);
    var d, rest := f + tail, value + Zeros(padding) + tail;
    PaddingFillsUp(size);
    ReadPut16(typ, Put(size, 2) + rest);
    ReadPut16(size, rest);
    assert d == Put(typ, 2) + (Put(size, 2) + rest);
    assert d[4..size] == value;
  }

  // ----- parameters -----

  /** A parameter that comes back as it was: it fits its length field, and a cookie is opaque. */
  predicate PlainParam(p: Param) {
    !p.HostNameDeprecated? && ParamSize(p) < TWO16 && (p.StateCookieP? ==> p.cookie.Opaque?)
  }

  lemma {:induction false} GetPutSupported(s: SupportedAddrTypes)
    ensures |PutSupported(s)| == SupportedSize(s) - 4
    ensures GetSupported(PutSupported(s), SupportedAddrTypes(false, false)) == s
  {
    var none, last := SupportedAddrTypes(false, false), if s.ipv6 then Put(PARAM_IPV6_ADDR, 2) else [];
    ReadPut16(PARAM_IPV4_ADDR, last);
    ReadPut16(PARAM_IPV6_ADDR, []);
    assert Put(PARAM_IPV6_ADDR, 2) + [] == Put(PARAM_IPV6_ADDR, 2);
    assert GetSupported(last, none.(ipv4 := s.ipv4)) == s by {
      assert s.ipv6 ==> GetSupported(last, none.(ipv4 := s.ipv4)) == GetSupported(last[2..], s);
    }
    if s.ipv4 {
      assert GetSupported(PutSupported(s), none) == GetSupported(last, none.(ipv4 := true));
    } else {
      assert PutSupported(s) == last;
    }
  }

  lemma {:induction false} ParseUnrecognizedParam(u: UnrecognizedParam, tail: Bytes)
    requires ParamSize(UnrecognizedP(u)) < TWO16
    ensures var f := SerializeParam(UnrecognizedP(u));
      |f| == PaddedLen(8 + |u.data|) && ParseParam(f + tail) == (|f|, Ok(UnrecognizedP(u))) && (f + tail)[|f|..] == tail
  {
    var size := 4 + |u.data|;
    var value := Put(u.typ, 2) + (Put(size, 2) + u.data);
    PaddingFillsUp(|u.data|);
    PaddingFillsUp(size);
    ReadPut16(u.typ, Put(size, 2) + u.data);
    ReadPut16(size, u.data);
    ParseParamFrame(PARAM_UNRECOGNIZED, 4 + size, value, PaddingNeeded(|u.data|), tail);
    assert value[4..] == u.data;
  }

  lemma {:induction false} ParseNumberParam(p: Param, tail: Bytes)
    requires p.IpV4Addr? || p.IpV6Addr? || p.CookiePreservative?
    ensures var f := SerializeParam(p);
      |f| == PaddedLen(ParamSize(p)) && ParseParam(f + tail) == (|f|, Ok(p)) && (f + tail)[|f|..] == tail
  {
    match p
    case IpV4Addr(v) =>
      assert Put(v, 4) + [] == Put(v, 4);
      ReadPut32(v, []);
      ParseParamFrame(PARAM_IPV4_ADDR, 8, Put(v, 4), 0, tail);
    case IpV6Addr(v) =>
      assert Put(v, 16) + [] == Put(v, 16);
      ReadPut128(v, []);
      ParseParamFrame(PARAM_IPV6_ADDR, 20, Put(v, 16), 0, tail);
    case CookiePreservative(ms) =>
      assert Put(ms, 4) + [] == Put(ms, 4);
      ReadPut32(ms, []);
      ParseParamFrame(PARAM_COOKIE_PRESERVATIVE, 8, Put(ms, 4), 0, tail);
  }

  /** Every parameter but a deprecated host name parses back, whatever follows it. */
  lemma {:induction false} ParamRoundTrip(p: Param, tail: Bytes)
    requires PlainParam(p)
    ensures var f := SerializeParam(p);
      |f| == PaddedLen(ParamSize(p)) && ParseParam(f + tail) == (|f|, Ok(p)) && (f + tail)[|f|..] == tail
  {
    match p
    case UnrecognizedP(u) => ParseUnrecognizedParam(u, tail);
    case SupportedTypes(s) =>
      GetPutSupported(s);
      ParseParamFrame(PARAM_SUPPORTED_ADDRESSES, SupportedSize(s), PutSupported(s), PaddingNeeded(SupportedSize(s)),
                      tail);
    case StateCookieP(c) =>
      ParseParamFrame(PARAM_STATE_COOKIE, 4 + |c.data|, c.data, PaddingNeeded(4 + |c.data|), tail);
    case _ => ParseNumberParam(p, tail);
  }

  // ----- parameter lists -----

  /** The encodings of the elements, one after the other. */
  function Concat<T>(xs: seq<T>, put: T -> Bytes): Bytes {
    if xs == [] then [] else put(xs[0]) + Concat(xs[1..], put)
  }

  lemma {:induction false} ConcatAppend<T>(xs: seq<T>, ys: seq<T>, put: T -> Bytes)
    ensures Concat(xs + ys, put) == Concat(xs, put) + Concat(ys, put)
  {
    if xs == [] {
      AppendNothing(ys);
      AppendNothing(Concat(ys, put));
    } else {
      ConcatAppend(xs[1..], ys, put);
      assert (xs + ys)[1..] == xs[1..] + ys;
      Reassociate(put(xs[0]), Concat(xs[1..], put), Concat(ys, put));
    }
  }

  function PutParams(ps: seq<Param>): Bytes { Concat(ps, SerializeParam) }

  function CollectAll(parts: Parts, ps: seq<Param>, isAck: bool): Parts
    decreases ps
  {
    if ps == [] then parts else CollectAll(Collect(parts, ps[0], isAck), ps[1..], isAck)
  }

  predicate PlainParams(ps: seq<Param>) { forall i :: 0 <= i < |ps| ==> PlainParam(ps[i]) }

  /** The parameter loop collects exactly the parameters that were serialized. */
  lemma {:induction false} ParamsRoundTrip(parts: Parts, ps: seq<Param>, isAck: bool)
    requires PlainParams(ps)
    ensures ParseParams(parts, PutParams(ps), isAck) == Some(CollectAll(parts, ps, isAck))
    decreases ps
  {
    if ps == [] {
    } else {
      ParamRoundTrip(ps[0], PutParams(ps[1..]));
      ParamsRoundTrip(Collect(parts, ps[0], isAck), ps[1..], isAck);
    }
  }

  lemma {:induction false} CollectConcat(parts: Parts, a: seq<Param>, b: seq<Param>, isAck: bool)
    ensures CollectAll(parts, a + b, isAck) == CollectAll(CollectAll(parts, a, isAck), b, isAck)
    decreases a
  {
    if a == [] {
      assert a + b == b;
    } else {
      CollectConcat(Collect(parts, a[0], isAck), a[1..], b, isAck);
      assert (a + b)[1..] == a[1..] + b;
    }
  }

  lemma {:induction false} MoveOver<T>(done: seq<T>, todo: seq<T>)
    requires todo != []
    ensures done + [todo[0]] + todo[1..] == done + todo
  {}

  predicate NoFakes(aliases: seq<TransportAddress>) { forall i :: 0 <= i < |aliases| ==> !aliases[i].Fake? }

  function AliasParam(a: TransportAddress): Param
    requires !a.Fake?
  {
    if a.IpV4? then IpV4Addr(a.v4) else IpV6Addr(a.v6)
  }

  function AliasList(aliases: seq<TransportAddress>): seq<Param>
    requires NoFakes(aliases)
  {
    if aliases == [] then [] else [AliasParam(aliases[0])] + AliasList(aliases[1..])
  }

  lemma {:induction false} AliasesAreParams(parts: Parts, aliases: seq<TransportAddress>, isAck: bool)
    requires NoFakes(aliases)
    ensures PlainParams(AliasList(aliases)) && PutParams(AliasList(aliases)) == PutAliasParams(aliases)
    ensures |PutAliasParams(aliases)| == AliasParamsSize(aliases)
    ensures CollectAll(parts, AliasList(aliases), isAck) == parts.(aliases := parts.aliases + aliases)
    decreases aliases
  {
    if aliases == [] {
      assert parts.aliases + aliases == parts.aliases;
    } else {
      var p := AliasParam(aliases[0]);
      ParseNumberParam(p, []);
      AliasesAreParams(Collect(parts, p, isAck), aliases[1..], isAck);
      assert AliasList(aliases)[1..] == AliasList(aliases[1..]);
      MoveOver(parts.aliases, aliases);
    }
  }

  predicate ShortParams(ps: seq<UnrecognizedParam>) { forall i :: 0 <= i < |ps| ==> 8 + |ps[i].data| < TWO16 }

  function UnrecognizedList(ps: seq<UnrecognizedParam>): seq<Param> {
    if ps == [] then [] else [UnrecognizedP(ps[0])] + UnrecognizedList(ps[1..])
  }

  lemma {:induction false} UnrecognizedAreParams(ps: seq<UnrecognizedParam>)
    requires ShortParams(ps)
    ensures PlainParams(UnrecognizedList(ps)) && PutParams(UnrecognizedList(ps)) == PutUnrecognized(ps)
    ensures |PutUnrecognized(ps)| == UnrecognizedSize(ps)
  {
    if ps == [] {
    } else {
      ParseUnrecognizedParam(ps[0], []);
      UnrecognizedAreParams(ps[1..]);
      assert UnrecognizedList(ps)[1..] == UnrecognizedList(ps[1..]);
    }
  }

  lemma {:induction false} UnrecognizedCollected(parts: Parts, ps: seq<UnrecognizedParam>)
    ensures CollectAll(parts, UnrecognizedList(ps), true) == parts.(unrecognized := parts.unrecognized + ps)
    decreases ps
  {
    if ps == [] {
      assert parts.unrecognized + ps == parts.unrecognized;
    } else {
      UnrecognizedCollected(Collect(parts, UnrecognizedP(ps[0]), true), ps[1..]);
      assert UnrecognizedList(ps)[1..] == UnrecognizedList(ps[1..]);
      MoveOver(parts.unrecognized, ps);
    }
  }

  function OptionsList(preservative: Option<u32>, supported: Option<SupportedAddrTypes>): seq<Param> {
    (if preservative.Some? then [CookiePreservative(preservative.value)] else [])
    + (if supported.Some? then [SupportedTypes(supported.value)] else [])
  }

  lemma {:induction false} OneParam(parts: Parts, p: Param, isAck: bool)
    ensures PutParams([p]) == SerializeParam(p) && CollectAll(parts, [p], isAck) == Collect(parts, p, isAck)
  {
    assert Concat([p][1..], SerializeParam) == [];
    assert Concat([p], SerializeParam) == SerializeParam(p) + [];
  }

  lemma {:induction false} OptionsAreParams(parts: Parts, preservative: Option<u32>,
                                            supported: Option<SupportedAddrTypes>,
                                            isAck: bool)
    requires parts.preservative == None && parts.supported == None
    ensures PlainParams(OptionsList(preservative, supported))
    ensures PutParams(OptionsList(preservative, supported)) == PutOptions(preservative, supported)
    ensures |PutOptions(preservative, supported)| == OptionsSize(preservative, supported)
    ensures CollectAll(parts, OptionsList(preservative, supported), isAck)
         == parts.(preservative := preservative, supported := supported)
  {
    var first := if preservative.Some? then [CookiePreservative(preservative.value)] else [];
    var last := if supported.Some? then [SupportedTypes(supported.value)] else [];
    ConcatAppend(first, last, SerializeParam);
    CollectConcat(parts, first, last, isAck);
    if preservative.Some? {
      OneParam(parts, first[0], isAck);
      ParseNumberParam(first[0], []);
    }
    if supported.Some? {
      OneParam(parts.(preservative := preservative), last[0], isAck);
      ParamRoundTrip(last[0], []);
    }
  }

  // ----- chunk values -----

  lemma {:induction false} ReadInitHeader(tag: u32, aRwnd: u32, outbound: u16, inbound: u16, tsn: u32, params: Bytes)
    ensures var d := PutInit(tag, aRwnd, outbound, inbound, tsn, params);
      && |d| == 16 + |params| && d[16..] == params
      && Read32(d) == tag && Read32(d[4..]) == aRwnd && Read16(d[8..]) == outbound && Read16(d[10..]) == inbound
      && Read32(d[12..]) == tsn
  {
    var d4 := Put(tsn, 4) + params;
    var d3 := Put(inbound, 2) + d4;
    var d2 := Put(outbound, 2) + d3;
    var d1 := Put(aRwnd, 4) + d2;
    ReadPut32(tag, d1);
    ReadPut32(aRwnd, d2);
    ReadPut16(outbound, d3);
    ReadPut16(inbound, d4);
    ReadPut32(tsn, params);
  }

  function InitList(i: InitChunk): seq<Param>
    requires NoFakes(i.aliases)
  {
    AliasList(i.aliases) + OptionsList(i.cookiePreservative, i.supportedAddrTypes)
  }

  lemma {:induction false} InitIsParams(i: InitChunk)
    requires NoFakes(i.aliases)
    ensures PlainParams(InitList(i)) && InitParams(i) == PutParams(InitList(i))
    ensures |InitParams(i)| == InitSize(i) - 20
    ensures CollectAll(NO_PARTS, InitList(i), false)
         == Parts(i.aliases, [], i.cookiePreservative, i.supportedAddrTypes, None)
  {
    var first, last := AliasList(i.aliases), OptionsList(i.cookiePreservative, i.supportedAddrTypes);
    AliasesAreParams(NO_PARTS, i.aliases, false);
    OptionsAreParams(NO_PARTS.(aliases := [] + i.aliases), i.cookiePreservative, i.supportedAddrTypes, false);
    ConcatAppend(first, last, SerializeParam);
    CollectConcat(NO_PARTS, first, last, false);
  }

  lemma {:induction false} InitRoundTrip(i: InitChunk)
    requires NoFakes(i.aliases) && i.unrecognized == []
    ensures |InitValue(i)| == InitSize(i) - 4 && ParseInit(InitValue(i)) == Some(i)
  {
    ReadInitHeader(i.initiateTag, i.aRwnd, i.outboundStreams, i.inboundStreams, i.initialTsn, InitParams(i));
    InitIsParams(i);
    ParamsRoundTrip(NO_PARTS, InitList(i), false);
  }

  /** The parameters of an INIT ACK, in the order in which they are written. */
  function InitAckList(i: InitAck): seq<Param>
    requires NoFakes(i.aliases)
  {
    [StateCookieP(i.cookie)]
    + (AliasList(i.aliases) + (UnrecognizedList(i.unrecognized)
                               + OptionsList(i.cookiePreservative, i.supportedAddrTypes)))
  }

  lemma {:induction false} InitAckIsParams(i: InitAck)
    requires NoFakes(i.aliases) && ShortParams(i.unrecognized) && i.cookie.Opaque? && 4 + |i.cookie.data| < TWO16
    ensures PlainParams(InitAckList(i)) && InitAckParams(i) == PutParams(InitAckList(i))
    ensures |InitAckParams(i)| == InitAckSize(i) - 20
  {
    var aliases, unknown := AliasList(i.aliases), UnrecognizedList(i.unrecognized);
    var options := OptionsList(i.cookiePreservative, i.supportedAddrTypes);
    AliasesAreParams(NO_PARTS, i.aliases, true);
    UnrecognizedAreParams(i.unrecognized);
    OptionsAreParams(NO_PARTS, i.cookiePreservative, i.supportedAddrTypes, true);
    ConcatAppend(unknown, options, SerializeParam);
    ConcatAppend(aliases, unknown + options, SerializeParam);
    ConcatAppend([StateCookieP(i.cookie)], aliases + (unknown + options), SerializeParam);
    OneParam(NO_PARTS, StateCookieP(i.cookie), true);
    ParamRoundTrip(StateCookieP(i.cookie), []);
    PaddingFillsUp(|i.cookie.data|);
  }

  lemma {:induction false} InitAckCollects(i: InitAck)
    requires NoFakes(i.aliases) && ShortParams(i.unrecognized)
    ensures CollectAll(NO_PARTS, InitAckList(i), true)
         == Parts(i.aliases, i.unrecognized, i.cookiePreservative, i.supportedAddrTypes, Some(i.cookie))
  {
    var aliases, unknown := AliasList(i.aliases), UnrecognizedList(i.unrecognized);
    var options := OptionsList(i.cookiePreservative, i.supportedAddrTypes);
    var p0 := NO_PARTS.(cookie := Some(i.cookie));
    var p1 := p0.(aliases := [] + i.aliases);
    var p2 := p1.(unrecognized := [] + i.unrecognized);
    OneParam(NO_PARTS, StateCookieP(i.cookie), true);
    AliasesAreParams(p0, i.aliases, true);
    UnrecognizedCollected(p1, i.unrecognized);
    OptionsAreParams(p2, i.cookiePreservative, i.supportedAddrTypes, true);
    CollectConcat(NO_PARTS, [StateCookieP(i.cookie)], aliases + (unknown + options), true);
    CollectConcat(p0, aliases, unknown + options, true);
    CollectConcat(p1, unknown, options, true);
  }

  lemma {:induction false} InitAckRoundTrip(i: InitAck)
    requires NoFakes(i.aliases) && ShortParams(i.unrecognized) && i.cookie.Opaque? && 4 + |i.cookie.data| < TWO16
    ensures |InitAckValue(i)| == InitAckSize(i) - 4 && ParseInitAck(InitAckValue(i)) == Some(i)
  {
    ReadInitHeader(i.initiateTag, i.aRwnd, i.outboundStreams, i.inboundStreams, i.initialTsn, InitAckParams(i));
    InitAckIsParams(i);
    InitAckCollects(i);
    ParamsRoundTrip(NO_PARTS, InitAckList(i), true);
  }

  lemma {:induction false} FirstBlock(b: (u16, u16), tail: Bytes, n: nat)
    requires 4 * n <= |tail|
    ensures var d := Put(b.0, 2) + (Put(b.1, 2) + tail);
      |d| == 4 + |tail| && GetBlocks(d, n + 1) == [b] + GetBlocks(tail, n)
  {
    var d := Put(b.0, 2) + (Put(b.1, 2) + tail);
    ReadPut16(b.0, Put(b.1, 2) + tail);
    ReadPut16(b.1, tail);
    assert d[4..] == d[2..][2..] == tail;
  }

  lemma {:induction false} BlocksRoundTrip(bs: seq<(u16, u16)>, rest: Bytes)
    ensures |PutBlocks(bs)| == 4 * |bs| && GetBlocks(PutBlocks(bs) + rest, |bs|) == bs
  {
    if bs == [] {
    } else {
      var tail := PutBlocks(bs[1..]) + rest;
      BlocksRoundTrip(bs[1..], rest);
      assert PutBlocks(bs) + rest == Put(bs[0].0, 2) + (Put(bs[0].1, 2) + tail);
      FirstBlock(bs[0], tail, |bs| - 1);
      assert bs == [bs[0]] + bs[1..];
    }
  }

  lemma {:induction false} TsnsRoundTrip(ts: seq<u32>)
    ensures |PutTsns(ts)| == 4 * |ts| && GetTsns(PutTsns(ts), |ts|) == ts
  {
    if ts == [] {
    } else {
      TsnsRoundTrip(ts[1..]);
      ReadPut32(ts[0], PutTsns(ts[1..]));
      assert ts == [ts[0]] + ts[1..];
    }
  }

  lemma {:induction false} ReadSackHeader(s: SelectiveAck, d5: Bytes)
    requires |s.blocks| < TWO16 && |s.duplicated| < TWO16
    ensures var d := Put(s.cumTsn, 4) + (Put(s.aRwnd, 4) + (Put(|s.blocks|, 2) + (Put(|s.duplicated|, 2) + d5)));
      && |d| == 12 + |d5| && d[12..] == d5
      && Read32(d) == s.cumTsn && Read32(d[4..]) == s.aRwnd && Read16(d[8..]) == |s.blocks|
      && Read16(d[10..]) == |s.duplicated|
  {
    var d4 := Put(|s.duplicated|, 2) + d5;
    var d3 := Put(|s.blocks|, 2) + d4;
    var d2 := Put(s.aRwnd, 4) + d3;
    ReadPut32(s.cumTsn, d2);
    ReadPut32(s.aRwnd, d3);
    ReadPut16(|s.blocks|, d4);
    ReadPut16(|s.duplicated|, d5);
  }

  lemma {:induction false} SackRoundTrip(s: SelectiveAck)
    requires SerializedSize(SAck(s)) < TWO16
    ensures |SackValue(s)| == SerializedSize(SAck(s)) - 4 && ParseSack(SackValue(s)) == Some(s)
  {
    var d, d5 := SackValue(s), PutBlocks(s.blocks) + PutTsns(s.duplicated);
    ReadSackHeader(s, d5);
    BlocksRoundTrip(s.blocks, PutTsns(s.duplicated));
    TsnsRoundTrip(s.duplicated);
    assert d[12 + 4 * |s.blocks|..] == d[12..][4 * |s.blocks|..] == PutTsns(s.duplicated);
  }

  lemma {:induction false} DataRoundTrip(d: DataChunk)
    requires d.buf != []
    ensures |DataValue(d)| == 12 + |d.buf| && ParseData(DataFlags(d), DataValue(d)) == Some(d)
  {
    var d3 := Put(d.ppid, 4) + d.buf;
    var d2 := Put(d.seqNum, 2) + d3;
    var d1 := Put(d.streamId, 2) + d2;
    ReadPut32(d.tsn, d1);
    ReadPut16(d.streamId, d2);
    ReadPut16(d.seqNum, d3);
    ReadPut32(d.ppid, d.buf);
  }

  // ----- chunks -----

  /** A chunk that comes back as it was: it fits its length field, carries data if it is a DATA chunk, and has
      no part that the serializer leaves out or writes in another form. */
  predicate Plain(c: Chunk) {
    && SerializedSize(c) < TWO16
    && match c
       case Data(d) => d.buf != []
       case Init(i) => NoFakes(i.aliases) && i.unrecognized == []
       case InitAckChunk(i) => NoFakes(i.aliases) && i.cookie.Opaque?
       case HeartBeatChunk(b) => b.OpaqueBeat?
       case HeartBeatAckChunk(b) => b.OpaqueBeat?
       case StateCookieChunk(cookie) => cookie.Opaque?
       case SAck(_) => true
       case Abort(_, _) => true
       case ShutDown(_) => true
       case ShutDownAck => true
       case StateCookieAck => true
       case ShutDownComplete(_) => true
       case _ => false
  }

  /** A chunk is the frame of a value that parses to it. */
  ghost predicate IsFrameOf(c: Chunk, typ: byte, flags: byte, value: Bytes) {
    && SerializeChunk(c) == Framed(typ, flags, SerializedSize(c), value)
    && SerializedSize(c) == 4 + |value| && ChunkValue(typ, flags, value) == Ok(c)
  }

  lemma {:induction false} UnrecognizedAreShort(ps: seq<UnrecognizedParam>, n: nat)
    requires UnrecognizedSize(ps) < n <= TWO16
    ensures ShortParams(ps)
  {
    if ps == [] {
    } else {
      UnrecognizedAreShort(ps[1..], n);
      assert forall i :: 0 < i < |ps| ==> ps[i] == ps[1..][i - 1];
    }
  }

  lemma {:induction false} FrameOfInit(c: Chunk)
    requires Plain(c)
    ensures c.Init? ==> IsFrameOf(c, CHUNK_INIT, 0, InitValue(c.init))
    ensures c.InitAckChunk? ==> IsFrameOf(c, CHUNK_INIT_ACK, 0, InitAckValue(c.ack))
  {
    if c.Init? {
      InitRoundTrip(c.init);
    } else if c.InitAckChunk? {
      UnrecognizedAreShort(c.ack.unrecognized, TWO16);
      InitAckRoundTrip(c.ack);
    }
  }

  lemma {:induction false} FrameOfData(c: Chunk)
    requires Plain(c) && c.Data?
    ensures IsFrameOf(c, CHUNK_DATA, DataFlags(c.data), DataValue(c.data))
  {
    DataRoundTrip(c.data);
  }

  lemma {:induction false} FrameOfSack(c: Chunk)
    requires Plain(c) && c.SAck?
    ensures IsFrameOf(c, CHUNK_SACK, 0, SackValue(c.sack))
  {
    SackRoundTrip(c.sack);
  }

  lemma {:induction false} FrameOfShutdown(c: Chunk)
    requires c.ShutDown?
    ensures IsFrameOf(c, CHUNK_SHUTDOWN, 0, Put(c.cumTsn, 4))
  {
    AppendNothing(Put(c.cumTsn, 4));
    ReadPut32(c.cumTsn, []);
  }

  lemma {:induction false} FrameOfOpaque(c: Chunk)
    requires Plain(c)
    ensures c.HeartBeatChunk? ==> IsFrameOf(c, CHUNK_HEARTBEAT, 0, c.beat.data)
    ensures c.HeartBeatAckChunk? ==> IsFrameOf(c, CHUNK_HEARTBEAT_ACK, 0, c.beatAck.data)
    ensures c.StateCookieChunk? ==> IsFrameOf(c, CHUNK_STATE_COOKIE, 0, c.cookie.data)
    ensures c.Abort? ==> IsFrameOf(c, CHUNK_ABORT, if c.reflected then 1 else 0, c.errorCauses)
  {
    if c.StateCookieChunk? {
      PaddingFillsUp(|c.cookie.data|);
    }
  }

  lemma {:induction false} FrameOfSignal(c: Chunk)
    ensures c.ShutDownAck? ==> IsFrameOf(c, CHUNK_SHUTDOWN_ACK, 0, [])
    ensures c.StateCookieAck? ==> IsFrameOf(c, CHUNK_STATE_COOKIE_ACK, 0, [])
    ensures c.ShutDownComplete? ==> IsFrameOf(c, CHUNK_SHUTDOWN_COMPLETE, if c.reflectedComplete then 1 else 0, [])
  {
    CookieAckBytes();
  }

  lemma {:induction false} IsFramed(c: Chunk)
    requires Plain(c)
    ensures exists typ, flags, value :: IsFrameOf(c, typ, flags, value)
  {
    FrameOfInit(c);
    if c.Data? {
      FrameOfData(c);
    } else if c.SAck? {
      FrameOfSack(c);
    } else if c.ShutDown? {
      FrameOfShutdown(c);
    }
    FrameOfOpaque(c);
    FrameOfSignal(c);
  }

  lemma {:induction false} CookieAckBytes()
    ensures SerializeChunk(StateCookieAck) == Framed(CHUNK_STATE_COOKIE_ACK, 0, 4, [])
  {}

  /** Every plain chunk takes exactly its padded size on the wire and parses back, whatever follows it. */
  lemma {:induction false} ChunkRoundTrip(c: Chunk, tail: Bytes)
    requires Plain(c)
    ensures var f := SerializeChunk(c);
      && f != [] && |f| == PaddedLen(SerializedSize(c))
      && ParseChunk(f + tail) == (|f|, Ok(c)) && (f + tail)[|f|..] == tail
  {
    IsFramed(c);
    var typ, flags, value :| IsFrameOf(c, typ, flags, value);
    ParseFramed(typ, flags, SerializedSize(c), value, tail);
  }

  function AllOk(cs: seq<Chunk>): seq<Result<Chunk, ChunkError>> {
    seq(|cs|, i requires 0 <= i < |cs| => Ok(cs[i]))
  }

  lemma {:induction false} ScanFirst(f: Bytes, tail: Bytes, cs: seq<Chunk>)
    requires cs != [] && f != [] && ParseChunk(f + tail) == (|f|, Ok(cs[0])) && (f + tail)[|f|..] == tail
    requires Scan(tail) == AllOk(cs[1..])
    ensures Scan(f + tail) == AllOk(cs)
  {}

  /** Packet-body round trip: the parse-and-advance loop sees exactly the chunks that were serialized. */
  lemma {:induction false} BodyRoundTrip(cs: seq<Chunk>)
    requires forall i :: 0 <= i < |cs| ==> Plain(cs[i])
    ensures Scan(SerializeAll(cs)) == AllOk(cs)
  {
    if cs == [] {
    } else {
      ChunkRoundTrip(cs[0], SerializeAll(cs[1..]));
      BodyRoundTrip(cs[1..]);
      ScanFirst(SerializeChunk(cs[0]), SerializeAll(cs[1..]), cs);
    }
  }
}
