/** The receiving half of an association as a value and its operations as functions. */
module RxModel {
  import opened Basics
  import opened SerialNumber
  import opened Chunks

  /** A complete message, as the list of the chunks that carried it. */
  datatype Event = Event(stream: u16, ppid: u32, unordered: bool, data: seq<DataChunk>)

  datatype PollDataResult = Closed | NoneAvailable | Received(event: Event)

  /** Fragments of unfinished messages of one stream, by stream sequence number. */
  type Reassembly = map<u16, seq<DataChunk>>

  /** `reorder` lists the entries of the TSN-ordered tree map from the first key to the last;
      the key of an entry is the TSN of its chunk. */
  datatype RxState = RxState(
    tsnCounter: u32,
    lastSentArwnd: u32,
    ordered: seq<Event>,
    unordered: seq<Event>,
    streams: seq<Reassembly>,
    reorder: seq<DataChunk>,
    limit: nat,
    buffered: int,
    shutdown: Option<ShutdownState>,
    notes: seq<TxNotification>)

  function NewRx(initTsn: u32, inStreams: u16, limit: nat): RxState {
    RxState(Decrease(initTsn), limit % TWO32, [], [], seq(inStreams, _ => map[]), [], limit, 0, None, [])
  }

  // ----- in-order delivery -----

  predicate Fits(r: RxState, d: DataChunk) { r.buffered + |d.buf| <= r.limit }

  predicate KnownStream(r: RxState, d: DataChunk) { d.streamId < |r.streams| }

  /** The fragments of the message of `d`, `d` included. */
  function Pieces(q: Reassembly, d: DataChunk): seq<DataChunk> {
    (if d.seqNum in q then q[d.seqNum] else []) + [d]
  }

  /** Takes the chunk that carries the next TSN, and completes its message if it is the last fragment. */
  function Accept(r: RxState, d: DataChunk): RxState
    requires KnownStream(r, d)
  {
    var q := r.streams[d.streamId];
    var pieces := Pieces(q, d);
    var r := r.(tsnCounter := Increase(r.tsnCounter), buffered := r.buffered + |d.buf|);
    if !d.end then r.(streams := r.streams[d.streamId := q[d.seqNum := pieces]])
    else
      var event := Event(d.streamId, d.ppid, d.unordered, pieces);
      var r := r.(streams := r.streams[d.streamId := q - {d.seqNum}]);
      if d.unordered then r.(unordered := r.unordered + [event])
      else r.(ordered := r.ordered + [event])
  }

  /** One chunk in TSN order, without looking at the reorder buffer; false when there is no room. */
  function TakeOne(r: RxState, d: DataChunk): (RxState, bool) {
    if !KnownStream(r, d) then (r, true)
    else if Fits(r, d) then (Accept(r, d), true)
    else (r, false)
  }

  predicate NextIsBuffered(r: RxState) {
    r.reorder != [] && r.reorder[0].tsn == Increase(r.tsnCounter)
  }

  function PopFirst(r: RxState): RxState
    requires r.reorder != []
  {
    r.(reorder := r.reorder[1..], buffered := r.buffered - |r.reorder[0].buf|)
  }

  /** Moves chunks out of the reorder buffer for as long as the next TSN is its first key. */
  function Drain(r: RxState): RxState
    decreases |r.reorder|
  {
    if NextIsBuffered(r) then Drain(TakeOne(PopFirst(r), r.reorder[0]).0) else r
  }

  function InOrder(r: RxState, d: DataChunk): (RxState, bool) {
    if KnownStream(r, d) && Fits(r, d) then (Drain(Accept(r, d)), true) else TakeOne(r, d)
  }

  lemma {:induction false} DrainIsFinished(r: RxState)
    ensures !NextIsBuffered(Drain(r))
    decreases |r.reorder|
  {
    if !NextIsBuffered(r) {
    } else {
      DrainIsFinished(TakeOne(PopFirst(r), r.reorder[0]).0);
    }
  }

  /** What draining never touches. */
  lemma {:induction false} DrainFrame(r: RxState)
    ensures Drain(r).limit == r.limit && |Drain(r).streams| == |r.streams| && Drain(r).notes == r.notes
    ensures Drain(r).shutdown == r.shutdown && Drain(r).lastSentArwnd == r.lastSentArwnd
    decreases |r.reorder|
  {
    if !NextIsBuffered(r) {
    } else {
      DrainFrame(TakeOne(PopFirst(r), r.reorder[0]).0);
    }
  }

  // ----- selective acknowledgements -----

  /** A run of TSNs as a gap block: distances from the counter, cut to 16 bits. */
  function Block(counter: u32, first: u32, last: u32): (u16, u16) {
    (Offset(counter, first) % TWO16, Offset(counter, last) % TWO16)
  }

  /** The blocks for the open run `first..last` followed by the chunks `rest`. */
  function Runs(counter: u32, first: u32, last: u32, rest: seq<DataChunk>): seq<(u16, u16)>
    decreases |rest|
  {
    if rest == [] then [Block(counter, first, last)]
    else if rest[0].tsn == Increase(last) then Runs(counter, first, rest[0].tsn, rest[1..])
    else [Block(counter, first, last)] + Runs(counter, rest[0].tsn, rest[0].tsn, rest[1..])
  }

  function GapBlocks(counter: u32, reorder: seq<DataChunk>): seq<(u16, u16)> {
    if reorder == [] then [] else Runs(counter, reorder[0].tsn, reorder[0].tsn, reorder[1..])
  }

  function MakeSack(r: RxState): SelectiveAck {
    SelectiveAck(r.tsnCounter, (r.limit - r.buffered) % TWO32, GapBlocks(r.tsnCounter, r.reorder), [])
  }

  function QueueAck(r: RxState): RxState {
    var sack := MakeSack(r);
    r.(lastSentArwnd := sack.aRwnd, notes := r.notes + [Send(SAck(sack))])
  }

  // ----- arrivals -----

  predicate Contains(reorder: seq<DataChunk>, tsn: u32) {
    exists k :: 0 <= k < |reorder| && reorder[k].tsn == tsn
  }

  /** Insertion into the TSN-ordered list. */
  function Insert(reorder: seq<DataChunk>, d: DataChunk): (r: seq<DataChunk>)
    decreases |reorder|
  {
    if reorder == [] || TsnCompare(d.tsn, reorder[0].tsn) == Less then [d] + reorder
    else [reorder[0]] + Insert(reorder[1..], d)
  }

  function Store(r: RxState, d: DataChunk): RxState {
    r.(buffered := r.buffered + |d.buf|, reorder := Insert(r.reorder, d))
  }

  function HandleData(r: RxState, d: DataChunk): RxState {
    match TsnCompare(d.tsn, Increase(r.tsnCounter))
    case Greater =>
      if Contains(r.reorder, d.tsn) || !Fits(r, d) then r else QueueAck(Store(r, d))
    case Equal =>
      var (r, taken) := InOrder(r, d);
      if taken then QueueAck(r) else r
    case Less => r
  }

  /** An arrival either queues nothing or one SACK that describes the state after it. */
  lemma {:induction false} DataFrame(r: RxState, d: DataChunk)
    ensures var a := HandleData(r, d);
      && a.limit == r.limit && |a.streams| == |r.streams| && a.shutdown == r.shutdown
      && (a.notes == r.notes || a.notes == r.notes + [Send(SAck(MakeSack(a)))])
  {
    if KnownStream(r, d) && Fits(r, d) {
      DrainFrame(Accept(r, d));
    }
  }

  /** Every other chunk only changes the shutdown state and informs the transmitter;
      the kinds the original leaves unimplemented are ignored. */
  function HandleControl(r: RxState, c: Chunk, now: nat): RxState {
    match c
    case SAck(sack) => r.(notes := r.notes + [PeerSAck(sack, now)])
    case Abort(_, _) => r.(shutdown := Some(AbortReceived), notes := r.notes + [PeerAbort])
    case ShutDown(_) => r.(shutdown := Some(ShutdownReceived), notes := r.notes + [PeerShutdown])
    case ShutDownAck => r.(shutdown := Some(Complete), notes := r.notes + [PeerShutdownAck])
    case ShutDownComplete(_) => r.(shutdown := Some(Complete), notes := r.notes + [PeerShutdownComplete])
    case HeartBeatChunk(beat) => r.(notes := r.notes + [Send(HeartBeatAckChunk(beat))])
    case HeartBeatAckChunk(ack) => r.(notes := r.notes + [PeerHeartBeatAck(ack, now)])
    case _ => r
  }

  /** The kinds of chunks that the receiver can be given; for all others there is no implementation. */
  predicate IsImplemented(c: Chunk) {
    || c.Data? || c.SAck? || c.Abort? || c.ShutDown? || c.ShutDownAck? || c.ShutDownComplete?
    || c.HeartBeatChunk? || c.HeartBeatAckChunk?
  }

  function Notified(r: RxState, c: Chunk, now: nat): RxState {
    if c.Data? then HandleData(r, c.data) else HandleControl(r, c, now)
  }

  function PollData(r: RxState): (RxState, PollDataResult) {
    if r.shutdown.Some? then (r, Closed)
    else if r.unordered != [] then
      var e := r.unordered[0];
      (r.(unordered := r.unordered[1..], buffered := r.buffered - PayloadBytes(e.data)), Received(e))
    else if r.ordered != [] then
      var e := r.ordered[0];
      (r.(ordered := r.ordered[1..], buffered := r.buffered - PayloadBytes(e.data)), Received(e))
    else (r, NoneAvailable)
  }
}
