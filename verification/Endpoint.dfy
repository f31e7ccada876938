/** The tables of an SCTP endpoint, and what a received packet does to them. */
module Endpoint {
  import opened Basics
  import opened Chunks
  import opened BigEndian
  import opened Wire
  import T = TxModel

  datatype Header = Header(from: u16, to: u16, tag: u32)

  datatype Alias = Alias(peerAddr: TransportAddress, peerPort: u16, localPort: u16)

  datatype AssocInfo = AssocInfo(localTag: u32, peerTag: u32)

  datatype WaitInitAck = WaitInitAck(localTag: u32, localTsn: u32)

  datatype WaitCookieAck = WaitCookieAck(
    localTag: u32,
    peerTag: u32,
    aliases: seq<TransportAddress>,
    originalAddress: TransportAddress,
    localTsn: u32,
    peerTsn: u32,
    localInStreams: u16,
    peerInStreams: u16,
    localOutStreams: u16,
    peerOutStreams: u16,
    peerArwnd: u32)

  datatype Settings = Settings(
    cookieSecret: Bytes,
    incomingStreams: u16,
    outgoingStreams: u16,
    inBufferLimit: nat,
    outBufferLimit: nat)

  /** The transmitter's settings, with what it writes into packet headers. */
  datatype TxSettings = TxSettings(peerTag: u32, localPort: u16, peerPort: u16, assoc: T.AssocTxSettings)

  /** What a new association starts from. */
  datatype NewAssoc = NewAssoc(id: nat, peerTsn: u32, inStreams: u16, inBufferLimit: nat, tx: TxSettings)

  datatype State = State(
    settings: Settings,
    assocIdGen: nat,
    newAssoc: Option<NewAssoc>,
    assocInfos: map<nat, AssocInfo>,
    aliases: map<Alias, nat>,
    waitInitAck: map<Alias, WaitInitAck>,
    waitCookieAck: map<Alias, WaitCookieAck>,
    txNotes: seq<(nat, TxNotification)>,
    sendImmediate: seq<(TransportAddress, Header, Chunk)>,
    rxNotes: seq<(nat, Chunk)>)

  /** `Panicked` stands for a call that does not return. */
  datatype Special<+T> = NotRecognized | Handled(value: T) | Error | Panicked

  function New(settings: Settings): State {
    State(settings, 1, None, map[], map[], map[], map[], [], [], [])
  }

  /** The keyed hash of a cookie: any function of everything in it but the MAC itself. */
  function CalcMac(hash: (Cookie, Bytes) -> u64, c: Cookie, secret: Bytes): u64 { hash(c.(mac := 0), secret) }

  predicate StartsWith(data: Bytes, typ: byte) { |data| >= CHUNK_HEADER_SIZE && data[0] == typ }

  /** A packet that starts with none of the chunks of the handshake. */
  predicate OutsideHandshake(data: Bytes) {
    && !StartsWith(data, CHUNK_INIT) && !StartsWith(data, CHUNK_INIT_ACK)
    && !StartsWith(data, CHUNK_STATE_COOKIE) && !StartsWith(data, CHUNK_STATE_COOKIE_ACK)
  }

  function AliasOf(from: TransportAddress, packet: Header): Alias { Alias(from, packet.from, packet.to) }

  // ----- opening an association -----

  function CreateInit(settings: Settings, tag: u32, tsn: u32): InitChunk {
    InitChunk(tag, settings.inBufferLimit % TWO32, settings.outgoingStreams, settings.outgoingStreams, tsn,
              [], [], None, None)
  }

  function CreateInitAck(settings: Settings, unrecognized: seq<UnrecognizedParam>, cookie: StateCookie, tsn: u32,
                         tag: u32)
    : InitAck
  {
    InitAck(tag, settings.inBufferLimit % TWO32, settings.outgoingStreams, settings.incomingStreams, tsn,
            cookie, unrecognized, [], None, None)
  }

  /** `tag` and `tsn` are the random numbers drawn by the call. */
  function InitAssociation(s: State, peer: TransportAddress, peerPort: u16, localPort: u16, tag: u32, tsn: u32): State {
    s.(waitInitAck := s.waitInitAck[Alias(peer, peerPort, localPort) := WaitInitAck(tag, tsn)],
       sendImmediate := s.sendImmediate + [(peer, Header(localPort, peerPort, 0),
                                            Init(CreateInit(s.settings, tag, tsn)))])
  }

  function InitCookie(s: State, packet: Header, from: TransportAddress, init: InitChunk, tag: u32, tsn: u32): Cookie {
    Cookie(0, from, packet.from, packet.to, init.aliases, tag, init.initiateTag, tsn, init.initialTsn,
           Min(s.settings.incomingStreams, init.outboundStreams), Min(s.settings.outgoingStreams, init.inboundStreams),
           init.aRwnd)
  }

  /** The INIT ACK that answers an INIT; nothing is remembered but what its cookie says. */
  function AnswerInit(s: State, hash: (Cookie, Bytes) -> u64, packet: Header, from: TransportAddress, init: InitChunk,
                      tag: u32, tsn: u32): State
  {
    var plain := InitCookie(s, packet, from, init, tag, tsn);
    var cookie := plain.(mac := CalcMac(hash, plain, s.settings.cookieSecret));
    var ack := CreateInitAck(s.settings, init.unrecognized, Ours(cookie), tsn, tag);
    s.(sendImmediate := s.sendImmediate + [(from, Header(packet.to, packet.from, init.initiateTag), InitAckChunk(ack))])
  }

  function HandleInit(s: State, hash: (Cookie, Bytes) -> u64, packet: Header, data: Bytes, from: TransportAddress,
                      tag: u32, tsn: u32): (State, Special<()>)
  {
    if !StartsWith(data, CHUNK_INIT) then (s, NotRecognized)
    else
      match ParseChunk(data)
      case (size, Ok(Init(init))) =>
        if size != |data| then (s, Error)
        else
          var alias := AliasOf(from, packet);
          if alias in s.waitInitAck
          then (AnswerInit(s, hash, packet, from, init, s.waitInitAck[alias].localTag, s.waitInitAck[alias].localTsn),
                Handled(()))
          else (AnswerInit(s, hash, packet, from, init, tag, tsn), Handled(()))
      case _ => (s, Error)
  }

  /** What the initiator remembers of an INIT ACK until the COOKIE ACK. */
  function HalfOpen(s: State, w: WaitInitAck, ack: InitAck, from: TransportAddress): WaitCookieAck {
    WaitCookieAck(w.localTag, ack.initiateTag, ack.aliases, from, w.localTsn, ack.initialTsn,
                  s.settings.incomingStreams, ack.inboundStreams, s.settings.outgoingStreams, ack.outboundStreams,
                  ack.aRwnd)
  }

  function HandleInitAck(s: State, packet: Header, data: Bytes, from: TransportAddress): (State, Special<()>) {
    if !StartsWith(data, CHUNK_INIT_ACK) then (s, NotRecognized)
    else
      match ParseChunk(data)
      case (size, Ok(InitAckChunk(ack))) =>
        var alias := AliasOf(from, packet);
        if size != |data| || alias !in s.waitInitAck then (s, Error)
        else
          var half := HalfOpen(s, s.waitInitAck[alias], ack, from);
          var echo := (from, Header(packet.to, packet.from, ack.initiateTag), StateCookieChunk(ack.cookie));
          (s.(waitInitAck := s.waitInitAck - {alias}, waitCookieAck := s.waitCookieAck[alias := half],
              sendImmediate := s.sendImmediate + [echo]), Handled(()))
      case _ => (s, Error)
  }

  /** One alias of the new association per address. */
  function AddAliases(aliases: map<Alias, nat>, addresses: seq<TransportAddress>, packet: Header, id: nat)
    : map<Alias, nat>
    decreases addresses
  {
    if addresses == [] then aliases
    else AddAliases(aliases[AliasOf(addresses[0], packet) := id], addresses[1..], packet, id)
  }

  function MakeNewAssoc(s: State, packet: Header, addresses: seq<TransportAddress>, localTag: u32, peerTsn: u32,
                        inStreams: u16, tx: TxSettings): State
  {
    var id := s.assocIdGen + 1;
    s.(assocIdGen := id,
       assocInfos := s.assocInfos[id := AssocInfo(localTag, tx.peerTag)],
       aliases := AddAliases(s.aliases[AliasOf(tx.assoc.primaryPath, packet) := id], addresses, packet, id),
       newAssoc := Some(NewAssoc(id, peerTsn, inStreams, s.settings.inBufferLimit, tx)))
  }

  function CookieTx(s: State, c: Cookie): TxSettings {
    TxSettings(c.peerTag, c.localPort, c.peerPort,
               T.AssocTxSettings(c.initAddress, c.localTsn, c.outgoingStreams, s.settings.outBufferLimit, c.peerArwnd))
  }

  /** Returns the new state, the association, and what follows the COOKIE ECHO in the packet. */
  function HandleCookieEcho(s: State, hash: (Cookie, Bytes) -> u64, packet: Header, data: Bytes, from: TransportAddress)
    : (State, Special<nat>, Bytes)
  {
    if !StartsWith(data, CHUNK_STATE_COOKIE) then (s, NotRecognized, data)
    else
      match ParseChunk(data)
      case (size, Ok(StateCookieChunk(cookie))) =>
        (match MakeOurs(cookie)
         case Rejected => (s, Error, data)
         case ParsePanicked => (s, Panicked, data)
         case Parsed(c) =>
           if CalcMac(hash, c, s.settings.cookieSecret) != c.mac then (s, Error, data)
           else if AliasOf(from, packet) in s.aliases then (s, Handled(s.aliases[AliasOf(from, packet)]), data[size..])
           else
             var t := MakeNewAssoc(s, packet, c.aliases, c.localTag, c.peerTsn, c.incomingStreams, CookieTx(s, c));
             (t.(txNotes := t.txNotes + [(t.assocIdGen, Send(StateCookieAck))]), Handled(t.assocIdGen), data[size..]))
      case _ => (s, Error, data)
  }

  function HalfOpenTx(s: State, w: WaitCookieAck, packet: Header): TxSettings {
    TxSettings(w.peerTag, packet.to, packet.from,
               T.AssocTxSettings(w.originalAddress, w.localTsn, Min(w.localOutStreams, w.peerOutStreams),
                                 s.settings.outBufferLimit, w.peerArwnd))
  }

  function HandleCookieAck(s: State, packet: Header, data: Bytes, from: TransportAddress)
    : (State, Special<nat>, Bytes)
  {
    if !StartsWith(data, CHUNK_STATE_COOKIE_ACK) then (s, NotRecognized, data)
    else
      match ParseChunk(data)
      case (size, Ok(StateCookieAck)) =>
        var alias, rest := AliasOf(from, packet), data[size..];
        if alias in s.aliases then (s, Handled(s.aliases[alias]), rest)
        else if alias !in s.waitCookieAck then (s, Error, rest)
        else
          var w := s.waitCookieAck[alias];
          var t := MakeNewAssoc(s.(waitCookieAck := s.waitCookieAck - {alias}), packet, w.aliases, w.localTag,
                                w.peerTsn,
                                Min(w.localInStreams, w.peerInStreams), HalfOpenTx(s, w, packet));
          (t, Handled(t.assocIdGen), rest)
      case _ => (s, Error, data)
  }

  // ----- chunks of an association -----

  function NotesWithout<N>(notes: seq<(nat, N)>, id: nat): seq<(nat, N)> {
    if notes == [] then [] else (if notes[0].0 == id then [] else [notes[0]]) + NotesWithout(notes[1..], id)
  }

  predicate BelongsTo(entry: (TransportAddress, Header, Chunk), from: TransportAddress, packet: Header) {
    entry.0 == from && entry.1.from == packet.to && entry.1.to == packet.from
  }

  function SendsWithout(queue: seq<(TransportAddress, Header, Chunk)>, from: TransportAddress, packet: Header)
    : seq<(TransportAddress, Header, Chunk)>
  {
    if queue == [] then []
    else (if BelongsTo(queue[0], from, packet) then [] else [queue[0]]) + SendsWithout(queue[1..], from, packet)
  }

  /** An ABORT removes the association and everything queued for it. */
  function Aborted(s: State, id: nat, from: TransportAddress, packet: Header, abort: Chunk): State {
    s.(aliases := map a | a in s.aliases && s.aliases[a] != id :: s.aliases[a],
       assocInfos := s.assocInfos - {id},
       txNotes := NotesWithout(s.txNotes, id),
       rxNotes := NotesWithout(s.rxNotes, id) + [(id, abort)],
       sendImmediate := SendsWithout(s.sendImmediate, from, packet))
  }

  /** What one result of the parse-and-advance loop does; an ABORT is handled by the loop itself. */
  function HandleChunk(s: State, id: nat, from: TransportAddress, packet: Header, peerTag: u32,
                       item: Result<Chunk, ChunkError>)
    : State
  {
    var back := Header(packet.to, packet.from, peerTag);
    match item
    case Ok(Init(_)) => s
    case Ok(InitAckChunk(_)) => s
    case Ok(HeartBeatChunk(beat)) => s.(sendImmediate := s.sendImmediate + [(from, back, HeartBeatAckChunk(beat))])
    case Ok(Padding(_)) => s
    case Ok(chunk) => s.(rxNotes := s.rxNotes + [(id, chunk)])
    case Err(Unrecognized(report, _)) =>
      if report then s.(sendImmediate := s.sendImmediate + [(from, back, OpError)]) else s
    case Err(_) => s
  }

  function HandleChunks(s: State, id: nat, from: TransportAddress, packet: Header, peerTag: u32,
                        items: seq<Result<Chunk, ChunkError>>): State
    decreases items
  {
    if items == [] then s
    else if items[0].Ok? && items[0].value.Abort? then Aborted(s, id, from, packet, items[0].value)
    else HandleChunks(HandleChunk(s, id, from, packet, peerTag, items[0]), id, from, packet, peerTag, items[1..])
  }

  function ProcessChunks(s: State, id: nat, from: TransportAddress, packet: Header, data: Bytes): State {
    if id !in s.assocInfos || s.assocInfos[id].localTag != packet.tag then s
    else HandleChunks(s, id, from, packet, s.assocInfos[id].peerTag, Scan(data))
  }

  // ----- a packet arrives -----

  /** The association that the rest of a packet is for. */
  function Addressee(s: State, echo: Special<nat>, ack: Special<nat>, alias: Alias): Option<nat> {
    if ack.Handled? then Some(ack.value)
    else if echo.Handled? then Some(echo.value)
    else if alias in s.aliases then Some(s.aliases[alias])
    else None
  }

  /** What follows a COOKIE ECHO, or the whole packet if it does not start with one. */
  function ReceiveRest(s: State, packet: Header, data: Bytes, from: TransportAddress, echo: Special<nat>): State {
    var (t, ack, rest) := HandleCookieAck(s, packet, data, from);
    if ack.Error? then t
    else
      match Addressee(t, echo, ack, AliasOf(from, packet))
      case None => t
      case Some(id) => ProcessChunks(t, id, from, packet, rest)
  }

  /** `receive_data` behind the packet header, and whether it panics; `tag` and `tsn` are the random numbers that an
      answer to an INIT may draw. */
  function Receive(s: State, hash: (Cookie, Bytes) -> u64, packet: Header, data: Bytes, from: TransportAddress,
                   tag: u32, tsn: u32): (State, bool)
  {
    var (s1, init) := HandleInit(s, hash, packet, data, from, tag, tsn);
    if init != NotRecognized then (s1, false)
    else
      var (s2, initAck) := HandleInitAck(s1, packet, data, from);
      if initAck != NotRecognized then (s2, false)
      else
        var (s3, echo, rest) := HandleCookieEcho(s2, hash, packet, data, from);
        if echo.Panicked? || echo.Error? then (s3, echo.Panicked?)
        else (ReceiveRest(s3, packet, rest, from, echo), false)
  }

  // ----- what every packet keeps -----

  predicate KnownIds<N>(notes: seq<(nat, N)>, last: nat) { forall i :: 0 <= i < |notes| ==> notes[i].0 <= last }

  /** Every alias leads to an association, and every id in use was handed out before. */
  predicate Valid(s: State) {
    && (forall a :: a in s.aliases ==> s.aliases[a] in s.assocInfos)
    && (forall id :: id in s.assocInfos ==> id <= s.assocIdGen)
    && (s.newAssoc.Some? ==> s.newAssoc.value.id <= s.assocIdGen)
    && KnownIds(s.txNotes, s.assocIdGen) && KnownIds(s.rxNotes, s.assocIdGen)
  }

  /** The packet carries a cookie that this endpoint has signed, from a peer without an association. */
  predicate EchoOpens(s: State, hash: (Cookie, Bytes) -> u64, packet: Header, data: Bytes, from: TransportAddress) {
    StartsWith(data, CHUNK_STATE_COOKIE) && AliasOf(from, packet) !in s.aliases &&
    match ParseChunk(data).1
    case Ok(StateCookieChunk(cookie)) =>
      var ours := MakeOurs(cookie);
      ours.Parsed? && CalcMac(hash, ours.cookie, s.settings.cookieSecret) == ours.cookie.mac
    case _ => false
  }

  /** The packet is the COOKIE ACK for a half-open association. */
  predicate AckOpens(s: State, packet: Header, data: Bytes, from: TransportAddress) {
    && StartsWith(data, CHUNK_STATE_COOKIE_ACK) && ParseChunk(data).1 == Ok(StateCookieAck)
    && AliasOf(from, packet) !in s.aliases && AliasOf(from, packet) in s.waitCookieAck
  }

  /** The packet is the INIT ACK that a half-open association waits for. */
  predicate AckAwaited(s: State, packet: Header, data: Bytes, from: TransportAddress) {
    && StartsWith(data, CHUNK_INIT_ACK) && ParseChunk(data).0 == |data| && AliasOf(from, packet) in s.waitInitAck
    && ParseChunk(data).1.Ok? && ParseChunk(data).1.value.InitAckChunk?
  }

  /** A COOKIE ECHO whose cookie is long enough for the length check and too short to be read. */
  predicate RunsPastTheEnd(data: Bytes) {
    StartsWith(data, CHUNK_STATE_COOKIE) && 37 <= Read16(data[2..]) <= 40 && Read16(data[2..]) <= |data|
  }
}
