/** What each packet of the handshake does to the endpoint that receives it. */
module HandshakeSteps {
  import opened Basics
  import opened Chunks
  import opened Wire
  import opened WireRoundTrip
  import opened CookiePath
  import opened Endpoint
  import opened Handshake

  // ----- the bytes of the handshake -----

  lemma {:induction false} FirstByte(typ: byte, flags: byte, size: nat, value: Bytes, tail: Bytes)
    ensures StartsWith(Framed(typ, flags, size, value) + tail, typ)
  {}

  lemma {:induction false} InitOnWire(w: World)
    ensures var f := SerializeChunk(Init(InitOf(w)));
      StartsWith(f, CHUNK_INIT) && ParseChunk(f) == (|f|, Ok(Init(InitOf(w))))
  {
    var f := SerializeChunk(Init(InitOf(w)));
    ChunkRoundTrip(Init(InitOf(w)), []);
    assert f + [] == f;
    FirstByte(CHUNK_INIT, 0, InitSize(InitOf(w)), InitValue(InitOf(w)), []);
  }

  lemma {:induction false} AckOnWire(w: World, tag: u32, tsn: u32)
    ensures var f := SerializeChunk(InitAckChunk(AckOf(w, tag, tsn)));
      && StartsWith(f, CHUNK_INIT_ACK)
      && ParseChunk(f)
         == (|f|, Ok(InitAckChunk(AckOf(w, tag, tsn).(cookie := Opaque(PutCookie(CookieOf(w, tag, tsn)))))))
  {
    var ack := AckOf(w, tag, tsn);
    var f := SerializeChunk(InitAckChunk(ack));
    InitAckArrives(ack);
    FirstByte(CHUNK_INIT_ACK, 0, InitAckSize(ack), InitAckValue(ack), []);
    assert f + [] == f;
  }

  lemma {:induction false} EchoBytes(cookie: Bytes)
    requires 4 + |cookie| < TWO16
    ensures var f := SerializeChunk(StateCookieChunk(Opaque(cookie)));
      StartsWith(f, CHUNK_STATE_COOKIE) && ParseChunk(f) == (|f|, Ok(StateCookieChunk(Opaque(cookie))))
  {
    var f := SerializeChunk(StateCookieChunk(Opaque(cookie)));
    ChunkRoundTrip(StateCookieChunk(Opaque(cookie)), []);
    FrameOfOpaque(StateCookieChunk(Opaque(cookie)));
    FirstByte(CHUNK_STATE_COOKIE, 0, 4 + |cookie|, cookie, []);
    assert f + [] == f;
  }

  lemma {:induction false} EchoOnWire(w: World, tag: u32, tsn: u32)
    ensures var f := SerializeChunk(EchoOf(w, tag, tsn));
      && StartsWith(f, CHUNK_STATE_COOKIE) && ParseChunk(f) == (|f|, Ok(EchoOf(w, tag, tsn)))
      && MakeOurs(EchoOf(w, tag, tsn).cookie) == Parsed(CookieOf(w, tag, tsn))
  {
    var c := CookieOf(w, tag, tsn);
    CookieRoundTrip(c);
    assert CookieSize(c) < 100;
    EchoBytes(PutCookie(c));
  }

  lemma {:induction false} CookieAckOnWire(tail: Bytes)
    ensures var f := SerializeChunk(StateCookieAck) + tail;
      StartsWith(f, CHUNK_STATE_COOKIE_ACK) && ParseChunk(f) == (4, Ok(StateCookieAck)) && f[4..] == tail
  {
    ChunkRoundTrip(StateCookieAck, tail);
  }

  // ----- what a packet does -----

  lemma {:induction false} ReceiveInit(s: State, hash: (Cookie, Bytes) -> u64, p: Header, data: Bytes,
                                       from: TransportAddress,
                                       tag: u32, tsn: u32, init: InitChunk)
    requires StartsWith(data, CHUNK_INIT) && ParseChunk(data) == (|data|, Ok(Init(init))) && s.waitInitAck == map[]
    ensures Receive(s, hash, p, data, from, tag, tsn) == (AnswerInit(s, hash, p, from, init, tag, tsn), false)
  {}

  lemma {:induction false} ReceiveInitAck(s: State, hash: (Cookie, Bytes) -> u64, p: Header, data: Bytes,
                                          from: TransportAddress,
                                          tag: u32, tsn: u32, ack: InitAck)
    requires StartsWith(data, CHUNK_INIT_ACK) && ParseChunk(data) == (|data|, Ok(InitAckChunk(ack)))
    ensures Receive(s, hash, p, data, from, tag, tsn) == (HandleInitAck(s, p, data, from).0, false)
  {}

  /** What is left of a packet goes to the association. */
  function Rest(s: State, p: Header, from: TransportAddress, rest: Bytes): State {
    if AliasOf(from, p) in s.aliases then ProcessChunks(s, s.aliases[AliasOf(from, p)], from, p, rest) else s
  }

  lemma {:induction false} ReceiveOrdinary(s: State, hash: (Cookie, Bytes) -> u64, p: Header, data: Bytes,
                                           from: TransportAddress,
                                           tag: u32, tsn: u32)
    requires Ordinary(data)
    ensures Receive(s, hash, p, data, from, tag, tsn) == (Rest(s, p, from, data), false)
  {}

  lemma {:induction false} ProcessNothing(s: State, id: nat, from: TransportAddress, p: Header)
    ensures ProcessChunks(s, id, from, p, []) == s
  {}

  lemma {:induction false} ReceiveEcho(s: State, hash: (Cookie, Bytes) -> u64, p: Header, data: Bytes,
                                       from: TransportAddress,
                                       tag: u32, tsn: u32, cookie: StateCookie, c: Cookie)
    requires StartsWith(data, CHUNK_STATE_COOKIE) && ParseChunk(data) == (|data|, Ok(StateCookieChunk(cookie)))
    requires MakeOurs(cookie) == Parsed(c) && CalcMac(hash, c, s.settings.cookieSecret) == c.mac
    ensures Receive(s, hash, p, data, from, tag, tsn) == (HandleCookieEcho(s, hash, p, data, from).0, false)
  {
    var (t, result, rest) := HandleCookieEcho(s, hash, p, data, from);
    assert result.Handled? && rest == [];
    ProcessNothing(t, result.value, from, p);
  }

  lemma {:induction false} ReceiveCookieAck(s: State, hash: (Cookie, Bytes) -> u64, p: Header, data: Bytes,
                                            from: TransportAddress,
                                            tag: u32, tsn: u32)
    requires StartsWith(data, CHUNK_STATE_COOKIE_ACK) && ParseChunk(data) == (4, Ok(StateCookieAck))
    requires AliasOf(from, p) in s.aliases || AliasOf(from, p) in s.waitCookieAck
    ensures var (t, result, rest) := HandleCookieAck(s, p, data, from);
      && result.Handled? && rest == data[4..]
      && Receive(s, hash, p, data, from, tag, tsn) == (ProcessChunks(t, result.value, from, p, rest), false)
  {}

  // ----- chunks without an ABORT leave the tables alone -----

  ghost predicate SameTables(s: State, t: State) {
    && t == s.(sendImmediate := t.sendImmediate, rxNotes := t.rxNotes)
    && forall e :: e in t.sendImmediate && IsHandshake(e.2) ==> e in s.sendImmediate
  }

  lemma {:induction false} ChunkKeepsTables(s: State, id: nat, from: TransportAddress, p: Header, peerTag: u32,
                                            item: Result<Chunk, ChunkError>)
    ensures SameTables(s, HandleChunk(s, id, from, p, peerTag, item))
  {}

  lemma {:induction false} SameTablesTransitive(s: State, t: State, u: State)
    requires SameTables(s, t) && SameTables(t, u)
    ensures SameTables(s, u)
  {}

  lemma {:induction false} ChunksKeepTables(s: State, id: nat, from: TransportAddress, p: Header, peerTag: u32,
                                            items: seq<Result<Chunk, ChunkError>>)
    requires forall r :: r in items && r.Ok? ==> !r.value.Abort?
    ensures SameTables(s, HandleChunks(s, id, from, p, peerTag, items))
    decreases items
  {
    if items == [] {
    } else {
      var t := HandleChunk(s, id, from, p, peerTag, items[0]);
      ChunkKeepsTables(s, id, from, p, peerTag, items[0]);
      ChunksKeepTables(t, id, from, p, peerTag, items[1..]);
      SameTablesTransitive(s, t, HandleChunks(t, id, from, p, peerTag, items[1..]));
    }
  }

  lemma {:induction false} ProcessKeepsTables(s: State, id: nat, from: TransportAddress, p: Header, data: Bytes)
    requires NoAbort(data)
    ensures SameTables(s, ProcessChunks(s, id, from, p, data))
  {
    if id in s.assocInfos && s.assocInfos[id].localTag == p.tag {
      ChunksKeepTables(s, id, from, p, s.assocInfos[id].peerTag, Scan(data));
    }
  }
}
