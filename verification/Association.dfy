/** A sender and a receiver over a channel that may lose, repeat, delay and reorder everything. */
module Association {
  import opened Basics
  import opened SerialNumber
  import opened Chunks
  import opened Messages
  import opened TxModel
  import opened TxInvariants
  import RxModel
  import RT = RxTracking

  /** A SACK that was sent, and the number of chunks that its cumulative TSN covers. */
  datatype SackRecord = SackRecord(sack: SelectiveAck, covers: nat)

  /** `hist` lists every chunk that ever got a TSN; it is also what the channel can deliver. `taken` counts
      the chunks that the receiver took in order, `sacks` holds every SACK ever sent, `accepted` the messages
      that the sender accepted, and `ordered` and `unordered` those handed to the receiving application. */
  datatype Pair = Pair(
    tx: TxState,
    rx: RxModel.RxState,
    hist: seq<DataChunk>,
    taken: nat,
    sacks: set<SackRecord>,
    accepted: seq<Message>,
    ordered: seq<Message>,
    unordered: seq<Message>)

  function NewPair(settings: AssocTxSettings, inStreams: u16, limit: nat, now: nat): Pair {
    Pair(NewTx(settings, now), RxModel.NewRx(settings.initTsn, inStreams, limit), [], 0, {}, [], [], [])
  }

  datatype Action =
    | AtSender(op: TxOp)
    | DeliverData(index: nat)
    | DeliverSack(record: SackRecord, now: nat)
    | DeliverControl(chunk: Chunk, now: nat)
    | PollMessage
    | TakeNotes

  /** The oldest chunk that the sender still keeps. */
  function Kept(p: Pair): int { |p.hist| - |p.tx.resend| }

  /** An empty chunk has no wire form; whatever is delivered is recent enough for 32-bit TSNs to be compared. */
  predicate CanHappen(p: Pair, a: Action) {
    match a
    case AtSender(op) => Clean(op) && !(op.NotifyOp? && op.note.PeerSAck?)
    case DeliverData(i) => i < |p.hist| && p.hist[i].buf != [] && -TSN_RADIUS <= i - p.taken <= TSN_RADIUS
    case DeliverSack(r, _) => r in p.sacks && -TSN_RADIUS <= r.covers - Kept(p) <= TSN_RADIUS
    case DeliverControl(c, _) => !c.Data?
    case PollMessage => true
    case TakeNotes => true
  }

  /** The chunks that a sender operation puts on the wire for the first time. */
  function NewChunks(s: TxState, op: TxOp): seq<DataChunk> {
    if !op.PollDataOp? then []
    else
      var (t, result) := PollData(s, op.limit, op.packed, op.now);
      if result.Polled? && t.tsnCounter != s.tsnCounter then [result.value] else []
  }

  /** The message that a sender operation accepts. */
  function NewMessages(s: TxState, op: TxOp): seq<Message> {
    if op.TrySendOp? && TrySend(s, op.data, op.stream, op.ppid, op.immediate, op.unordered).1.None?
    then [Message(op.stream, op.ppid, op.unordered, op.data)]
    else []
  }

  /** The SACK that the receiver queued between two states. */
  function NewSacks(before: RxModel.RxState, after: RxModel.RxState, taken: nat): set<SackRecord> {
    if |after.notes| > |before.notes| then
      match after.notes[|after.notes| - 1]
      case Send(SAck(sack)) => {SackRecord(sack, taken)}
      case _ => {}
    else {}
  }

  function Do(p: Pair, a: Action): Pair
    requires CanHappen(p, a)
  {
    match a
    case AtSender(op) =>
      p.(tx := Apply(p.tx, op), hist := p.hist + NewChunks(p.tx, op), accepted := p.accepted + NewMessages(p.tx, op))
    case DeliverData(i) =>
      var rx := RxModel.HandleData(p.rx, p.hist[i]);
      var taken := RT.TakenAfter(p.rx, p.hist[i], p.taken);
      p.(rx := rx, taken := taken, sacks := p.sacks + NewSacks(p.rx, rx, taken))
    case DeliverSack(r, now) => p.(tx := HandleSack(p.tx, r.sack, now))
    case DeliverControl(c, now) => p.(rx := RxModel.HandleControl(p.rx, c, now))
    case PollMessage =>
      var (rx, result) := RxModel.PollData(p.rx);
      p.(rx := rx, ordered := p.ordered + RT.Handed(result, false), unordered := p.unordered + RT.Handed(result, true))
    case TakeNotes => p.(rx := p.rx.(notes := []))
  }

  /** An action that cannot happen changes nothing. */
  function Step(p: Pair, a: Action): Pair { if CanHappen(p, a) then Do(p, a) else p }

  function RunPair(p: Pair, actions: seq<Action>): Pair {
    if actions == [] then p else Step(RunPair(p, actions[..|actions| - 1]), actions[|actions| - 1])
  }

  // ----- the invariant -----

  /** The sender still keeps exactly the end of the history, and nothing the receiver has not taken is gone. */
  ghost predicate KeepsUnacked(p: Pair, init: u32) {
    && Sound(p.tx)
    && 0 <= Kept(p) <= p.taken
    && DataOf(p.tx.resend) == p.hist[Kept(p)..]
    && p.tx.tsnCounter == At(init, |p.hist|)
    && (p.tx.lastAcked == At(init, Kept(p) - 1) || (Kept(p) == 0 && p.tx.lastAcked == 0))
  }

  /** What was sent and what is still queued are the accepted messages, in order. */
  ghost predicate CarriesMessages(p: Pair) {
    Completed(p.hist + p.tx.outQueue) == p.accepted && Resumes(p.hist, p.tx.outQueue)
  }

  ghost predicate StreamsMatch(p: Pair) {
    && |p.tx.streams| <= |p.rx.streams|
    && forall i :: 0 <= i < |p.tx.outQueue| ==> p.tx.outQueue[i].streamId < |p.rx.streams|
  }

  /** Bytes in the receive buffer plus bytes that are on their way to it. */
  function Demand(p: Pair): int
    requires p.taken <= |p.hist|
  {
    p.rx.buffered + RT.Missing(p.rx, p.hist, p.taken)
  }

  /** A SACK says what it says about the time it was sent, and whatever happened since then was in flight. */
  ghost predicate Honest(p: Pair, init: u32, r: SackRecord)
    requires p.taken <= |p.hist|
  {
    && r.covers <= p.taken
    && r.sack.cumTsn == At(init, r.covers - 1)
    && Demand(p) + r.sack.aRwnd <= p.rx.limit + PayloadBytes(p.hist[r.covers..])
  }

  ghost predicate FlowControlled(p: Pair, init: u32)
    requires p.taken <= |p.hist|
  {
    && p.rx.limit < TWO32 && p.tx.outLimit < TWO32
    && Demand(p) + p.tx.peerWindow <= p.rx.limit
    && forall r :: r in p.sacks ==> Honest(p, init, r)
  }

  ghost predicate Inv(p: Pair, init: u32) {
    && RT.Follows(p.rx, p.hist, init, p.taken, 1, p.ordered, p.unordered)
    && KeepsUnacked(p, init) && CarriesMessages(p) && StreamsMatch(p) && FlowControlled(p, init)
  }
}
