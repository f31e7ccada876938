/** The four-way handshake over a network that loses, repeats and reorders packets. */
module Handshake {
  import opened Basics
  import opened Chunks
  import opened Wire
  import opened Endpoint
  import T = TxModel

  /** A packet on the network; `toB` says which way it goes. */
  datatype Message = Message(toB: bool, header: Header, body: Bytes)

  /** An association that was made, with the verification tags of its endpoint. */
  datatype Made = Made(assoc: NewAssoc, info: AssocInfo)

  /** Everything that does not change: the addresses and ports, the settings of both endpoints, the hash function, and
      the tag and TSN that the initiator draws. */
  datatype World = World(
    addrA: TransportAddress,
    addrB: TransportAddress,
    portA: u16,
    portB: u16,
    settingsA: Settings,
    settingsB: Settings,
    hash: (Cookie, Bytes) -> u64,
    tagA: u32,
    tsnA: u32)

  /** Initiator `a`, responder `b`, every packet ever sent, the associations made so far, and whether a call
      panicked. */
  datatype Net = Net(a: State, b: State, sent: set<Message>, madeA: seq<Made>, madeB: seq<Made>, panicked: bool)

  function Start(w: World): Net {
    Net(InitAssociation(New(w.settingsA), w.addrB, w.portB, w.portA, w.tagA, w.tsnA), New(w.settingsB), {}, [], [],
        false)
  }

  datatype Action =
    | SendImmediate(atA: bool)
    | SendCookieAck(id: nat, tail: Bytes)
    | Deliver(message: Message, tag: u32, tsn: u32)
    | Other(other: Message)

  /** A packet body without an ABORT. */
  ghost predicate NoAbort(data: Bytes) { forall r :: r in Scan(data) && r.Ok? ==> !r.value.Abort? }

  /** Packets that are not part of the handshake: they do not start with one of its chunks. */
  ghost predicate Ordinary(data: Bytes) { OutsideHandshake(data) && NoAbort(data) }

  predicate IsHandshake(c: Chunk) { c.Init? || c.InitAckChunk? || c.StateCookieChunk? }

  ghost predicate CanHappen(w: World, n: Net, act: Action) {
    match act
    case SendImmediate(atA) => (if atA then n.a else n.b).sendImmediate != []
    case SendCookieAck(id, tail) =>
      && NoAbort(tail)
      && exists i :: 0 <= i < |n.b.txNotes| && n.b.txNotes[i] == (id, Send(StateCookieAck))
    case Deliver(m, _, _) => m in n.sent
    case Other(m) => Ordinary(m.body)
  }

  /** The association that a step made, if it made one. */
  function NewlyMade(before: State, after: State): seq<Made> {
    if after.assocIdGen != before.assocIdGen && after.newAssoc.Some? && after.newAssoc.value.id in after.assocInfos
    then [Made(after.newAssoc.value, after.assocInfos[after.newAssoc.value.id])]
    else []
  }

  function Arrive(w: World, n: Net, m: Message, tag: u32, tsn: u32): Net {
    if m.toB then
      var (b, panicked) := Receive(n.b, w.hash, m.header, m.body, w.addrA, tag, tsn);
      n.(b := b, madeB := n.madeB + NewlyMade(n.b, b), panicked := n.panicked || panicked)
    else
      var (a, panicked) := Receive(n.a, w.hash, m.header, m.body, w.addrB, tag, tsn);
      n.(a := a, madeA := n.madeA + NewlyMade(n.a, a), panicked := n.panicked || panicked)
  }

  /** The packets that the front of a send queue turns into; heartbeat and error answers are ordinary packets. */
  function Emitted(toB: bool, queue: seq<(TransportAddress, Header, Chunk)>): set<Message> {
    if queue != [] && IsHandshake(queue[0].2) then {Message(toB, queue[0].1, SerializeChunk(queue[0].2))} else {}
  }

  function PopFront(s: State): State { if s.sendImmediate == [] then s else s.(sendImmediate := s.sendImmediate[1..]) }

  /** The packet in which the transmitter of the new association sends the COOKIE ACK; more chunks may follow it. */
  function AckPacket(w: World, n: Net, id: nat, tail: Bytes): Message {
    var tag := if id in n.b.assocInfos then n.b.assocInfos[id].peerTag else 0;
    Message(false, Header(w.portB, w.portA, tag), SerializeChunk(StateCookieAck) + tail)
  }

  function Do(w: World, n: Net, act: Action): Net {
    match act
    case SendImmediate(true) => n.(a := PopFront(n.a), sent := n.sent + Emitted(true, n.a.sendImmediate))
    case SendImmediate(false) => n.(b := PopFront(n.b), sent := n.sent + Emitted(false, n.b.sendImmediate))
    case SendCookieAck(id, tail) => n.(sent := n.sent + {AckPacket(w, n, id, tail)})
    case Deliver(m, tag, tsn) => Arrive(w, n, m, tag, tsn)
    case Other(m) => Arrive(w, n, m, 0, 0)
  }

  ghost function Step(w: World, n: Net, act: Action): Net { if CanHappen(w, n, act) then Do(w, n, act) else n }

  ghost function Run(w: World, acts: seq<Action>): Net {
    if acts == [] then Start(w) else Step(w, Run(w, acts[..|acts| - 1]), acts[|acts| - 1])
  }

  // ----- the packets of a handshake -----

  function InitOf(w: World): InitChunk { CreateInit(w.settingsA, w.tagA, w.tsnA) }

  /** The cookie of a responder that drew `tag` and `tsn`. */
  function CookieOf(w: World, tag: u32, tsn: u32): Cookie {
    var plain := InitCookie(New(w.settingsB), Header(w.portA, w.portB, 0), w.addrA, InitOf(w), tag, tsn);
    plain.(mac := CalcMac(w.hash, plain, w.settingsB.cookieSecret))
  }

  function AckOf(w: World, tag: u32, tsn: u32): InitAck {
    CreateInitAck(w.settingsB, [], Ours(CookieOf(w, tag, tsn)), tsn, tag)
  }

  function EchoOf(w: World, tag: u32, tsn: u32): Chunk { StateCookieChunk(Opaque(PutCookie(CookieOf(w, tag, tsn)))) }

  function InitEntry(w: World): (TransportAddress, Header, Chunk) {
    (w.addrB, Header(w.portA, w.portB, 0), Init(InitOf(w)))
  }

  function AckEntry(w: World, tag: u32, tsn: u32): (TransportAddress, Header, Chunk) {
    (w.addrA, Header(w.portB, w.portA, w.tagA), InitAckChunk(AckOf(w, tag, tsn)))
  }

  function EchoEntry(w: World, tag: u32, tsn: u32): (TransportAddress, Header, Chunk) {
    (w.addrB, Header(w.portA, w.portB, tag), EchoOf(w, tag, tsn))
  }

  function AliasA(w: World): Alias { Alias(w.addrB, w.portB, w.portA) }

  function AliasB(w: World): Alias { Alias(w.addrA, w.portA, w.portB) }

  /** The tag and TSN of the INIT ACK that the initiator accepted. */
  datatype Choice = NotYet | Chosen(tag: u32, tsn: u32)

  /** Every packet on the network is one that the handshake explains. */
  ghost predicate Explained(w: World, c: Choice, open: bool, m: Message) {
    if m.toB then
      || (m.header == InitEntry(w).1 && m.body == SerializeChunk(Init(InitOf(w))))
      || (c.Chosen? && m.header == EchoEntry(w, c.tag, c.tsn).1 && m.body == SerializeChunk(EchoOf(w, c.tag, c.tsn)))
    else
      && m.header == Header(w.portB, w.portA, w.tagA)
      && (|| (exists tag: u32, tsn: u32 :: m.body == SerializeChunk(InitAckChunk(AckOf(w, tag, tsn))))
          || (open && exists tail :: NoAbort(tail) && m.body == SerializeChunk(StateCookieAck) + tail))
  }

  // ----- the two endpoints -----

  function HalfOf(w: World, tag: u32, tsn: u32): WaitCookieAck {
    HalfOpen(New(w.settingsA), WaitInitAck(w.tagA, w.tsnA), AckOf(w, tag, tsn), w.addrB)
  }

  /** The association of the initiator. */
  function MadeByA(w: World, tag: u32, tsn: u32): Made {
    var sa, sb := w.settingsA, w.settingsB;
    Made(NewAssoc(2, tsn, Min(sa.incomingStreams, sb.incomingStreams), sa.inBufferLimit,
                  TxSettings(tag, w.portA, w.portB,
                             T.AssocTxSettings(w.addrB, w.tsnA, Min(sa.outgoingStreams, sb.outgoingStreams),
                                               sa.outBufferLimit, sb.inBufferLimit % TWO32))),
         AssocInfo(w.tagA, tag))
  }

  /** The association of the responder. */
  function MadeByB(w: World, tag: u32, tsn: u32): Made {
    var sa, sb := w.settingsA, w.settingsB;
    Made(NewAssoc(2, w.tsnA, Min(sb.incomingStreams, sa.outgoingStreams), sb.inBufferLimit,
                  TxSettings(w.tagA, w.portB, w.portA,
                             T.AssocTxSettings(w.addrA, tsn, Min(sb.outgoingStreams, sa.outgoingStreams),
                                               sb.outBufferLimit, sa.inBufferLimit % TWO32))),
         AssocInfo(tag, w.tagA))
  }

  ghost predicate SendsA(w: World, c: Choice, s: State) {
    forall e :: e in s.sendImmediate && IsHandshake(e.2) ==>
      e == InitEntry(w) || (c.Chosen? && e == EchoEntry(w, c.tag, c.tsn))
  }

  ghost predicate SendsB(w: World, s: State) {
    forall e :: e in s.sendImmediate && IsHandshake(e.2) ==> exists tag: u32, tsn: u32 :: e == AckEntry(w, tag, tsn)
  }

  ghost predicate Waiting(w: World, s: State) {
    && s.waitInitAck == map[AliasA(w) := WaitInitAck(w.tagA, w.tsnA)] && s.waitCookieAck == map[]
    && s.aliases == map[] && s.assocIdGen == 1
  }

  ghost predicate EchoSent(w: World, c: Choice, s: State) {
    && c.Chosen? && s.waitInitAck == map[] && s.waitCookieAck == map[AliasA(w) := HalfOf(w, c.tag, c.tsn)]
    && s.aliases == map[] && s.assocIdGen == 1
  }

  ghost predicate OpenA(w: World, s: State) {
    s.waitInitAck == map[] && s.waitCookieAck == map[] && s.aliases == map[AliasA(w) := 2]
  }

  ghost predicate Initiator(w: World, c: Choice, s: State, made: seq<Made>) {
    && s.settings == w.settingsA && SendsA(w, c, s)
    && (|| (c.NotYet? && Waiting(w, s) && made == [])
        || (EchoSent(w, c, s) && made == [])
        || (c.Chosen? && OpenA(w, s) && made == [MadeByA(w, c.tag, c.tsn)]))
  }

  ghost predicate Idle(s: State) { s.aliases == map[] && s.assocIdGen == 1 && s.txNotes == [] }

  ghost predicate OpenB(w: World, c: Choice, s: State) {
    && c.Chosen? && s.aliases == map[AliasB(w) := 2] && s.txNotes == [(2, Send(StateCookieAck))]
    && s.assocInfos == map[2 := MadeByB(w, c.tag, c.tsn).info]
  }

  ghost predicate Responder(w: World, c: Choice, s: State, made: seq<Made>) {
    && s.settings == w.settingsB && SendsB(w, s) && s.waitInitAck == map[] && s.waitCookieAck == map[]
    && (|| (Idle(s) && s.assocInfos == map[] && made == [])
        || (OpenB(w, c, s) && made == [MadeByB(w, c.tag, c.tsn)]))
  }

  ghost predicate Inv(w: World, c: Choice, n: Net) {
    && Initiator(w, c, n.a, n.madeA) && Responder(w, c, n.b, n.madeB)
    && (forall m :: m in n.sent ==> Explained(w, c, n.madeB != [], m))
    && (n.madeA != [] ==> n.madeB != []) && !n.panicked
  }
}
