/** The transmitting half of an association as a value and its operations as functions. */
module TxModel {
  import opened Basics
  import opened SerialNumber
  import opened Chunks
  import BigEndian
  import C = Congestion
  import R = RoundTrip

  datatype Timer = Timer(at: nat, marker: u64)

  datatype ResendEntry = ResendEntry(
    queuedAt: nat,
    data: DataChunk,
    markedForRetransmit: bool,
    markedForFastRetransmit: bool,
    markedWasFastRetransmit: bool,
    partiallyAcked: bool)

  datatype SendErrorKind = SendClosed | BufferFull | UnknownStream

  /** `Panicked` stands for a call that does not return. */
  datatype PollResult<T> = Nothing | Polled(value: T) | Ended | Panicked

  /** The path MTU in use: it starts at 1200 and only grows. */
  type Pmtu = p: int | 1200 <= p witness 1200

  datatype TxState = TxState(
    outQueue: seq<DataChunk>,
    resend: seq<ResendEntry>,
    sendNext: seq<Chunk>,
    tsnCounter: u32,
    lastAcked: u32,
    peerLastAcked: u32,
    duplicatedAcks: nat,
    outLimit: nat,
    outBuffered: int,
    inFlight: int,
    streams: seq<u16>,
    peerWindow: u32,
    window: C.Window,
    rtt: R.Estimate,
    timerCtr: u64,
    rtoTimer: Option<Timer>,
    shutdownTimer: Option<Timer>,
    heartbeatTimer: Option<Timer>,
    heartbeatsUnacked: nat,
    pmtu: Pmtu,
    primaryPath: TransportAddress,
    shutdown: Option<ShutdownState>)

  datatype AssocTxSettings = AssocTxSettings(
    primaryPath: TransportAddress,
    initTsn: u32,
    outStreams: u16,
    outBufferLimit: nat,
    peerArwnd: u32)

  function NewTx(settings: AssocTxSettings, now: nat): TxState {
    TxState([], [], [], settings.initTsn, 0, 0, 0, settings.outBufferLimit, 0, 0,
            seq(settings.outStreams, _ => 0), settings.peerArwnd, C.NewWindow(1500), R.NEW, 1, None, None,
            Some(Timer(now + 10 * R.MILLISECOND, 0)), 0, 1200, settings.primaryPath, None)
  }

  function DataOf(q: seq<ResendEntry>): seq<DataChunk> {
    seq(|q|, i requires 0 <= i < |q| => q[i].data)
  }

  function QueuedBytes(q: seq<ResendEntry>): nat { PayloadBytes(DataOf(q)) }

  // ----- timers -----

  function NextMarker(m: u64): u64 { if m == TWO64 - 1 then 0 else m + 1 }

  function ArmRto(s: TxState, now: nat): TxState {
    s.(rtoTimer := Some(Timer(now + R.Duration(s.rtt), s.timerCtr)), timerCtr := NextMarker(s.timerCtr))
  }

  function ArmShutdown(s: TxState, now: nat): TxState {
    s.(shutdownTimer := Some(Timer(now + R.Duration(s.rtt), s.timerCtr)), timerCtr := NextMarker(s.timerCtr))
  }

  function ArmHeartbeat(s: TxState, at: nat): TxState {
    s.(heartbeatTimer := Some(Timer(at, s.timerCtr)), timerCtr := NextMarker(s.timerCtr))
  }

  // ----- the application sends -----

  function TrySend(s: TxState, data: Bytes, stream: u16, ppid: u32, immediate: bool, unordered: bool)
    : (TxState, Option<SendErrorKind>)
  {
    if s.shutdown.Some? then (s, Some(SendClosed))
    else if stream >= |s.streams| then (s, Some(UnknownStream))
    else if s.outBuffered + |data| > s.outLimit then (s, Some(BufferFull))
    else
      var chunk := DataChunk(0, stream, s.streams[stream], ppid, data, immediate, unordered, true, true);
      var s := s.(outBuffered := s.outBuffered + |data|, outQueue := s.outQueue + [chunk]);
      if unordered then (s, None)
      else (s.(streams := s.streams[stream := IncreaseSequence(s.streams[stream])]), None)
  }

  // ----- data on the wire -----

  /** A chunk with the next TSN enters the resend queue. */
  function EnterFlight(s: TxState, packet: DataChunk, now: nat): TxState {
    s.(
      tsnCounter := Increase(s.tsnCounter),
      peerWindow := (s.peerWindow - |packet.buf|) % TWO32,
      inFlight := s.inFlight + |packet.buf|,
      resend := s.resend + [ResendEntry(now, packet, false, false, false, false)])
  }

  /** Books a chunk that just got the next TSN as in flight. */
  function Book(s: TxState, packet: DataChunk, now: nat): TxState {
    EnterFlight(s, packet, now).(rtt := R.Sent(s.rtt, packet.tsn, now))
  }

  /** Puts a chunk on the wire for the first time. */
  function Transmit(s: TxState, packet: DataChunk, now: nat): TxState {
    var s := Book(s, packet, now);
    if s.rtoTimer.None? then ArmRto(s, now) else s
  }

  /** The first `k` bytes of the front message as a chunk of their own. */
  function Fragment(front: DataChunk, tsn: u32, k: nat): DataChunk
    requires k <= |front.buf|
  {
    front.(tsn := tsn, buf := front.buf[..k], end := false)
  }

  function Remainder(front: DataChunk, k: nat): DataChunk
    requires k <= |front.buf|
  {
    front.(begin := false, buf := front.buf[k..])
  }

  function PollNew(s: TxState, room: nat, now: nat): (TxState, PollResult<DataChunk>) {
    if s.outQueue == [] || s.inFlight > s.window.cwnd then (s, Nothing)
    else
      var front, room := s.outQueue[0], Min(room, s.peerWindow);
      if |front.buf| <= room then
        var packet := front.(tsn := s.tsnCounter, end := true);
        (Transmit(s.(outQueue := s.outQueue[1..]), packet, now), Polled(packet))
      else if |front.buf| > s.pmtu && room > 0 then
        var packet := Fragment(front, s.tsnCounter, room);
        (Transmit(s.(outQueue := [Remainder(front, room)] + s.outQueue[1..]), packet, now), Polled(packet))
      else (s, Nothing)
  }

  function PollLost(s: TxState, room: nat, now: nat): (TxState, PollResult<DataChunk>) {
    if s.resend == [] then (s, Panicked)
    else
      var front := s.resend[0];
      if |front.data.buf| <= room && front.markedForRetransmit then
        var s := s.(resend := s.resend[0 := front.(markedForRetransmit := false)]);
        (if s.rtoTimer.None? then ArmRto(s, now) else s, Polled(front.data))
      else (s, Nothing)
  }

  predicate WantsFastRetransmit(e: ResendEntry, room: nat) {
    e.markedForFastRetransmit && !e.markedWasFastRetransmit && |e.data.buf| <= room
  }

  /** Index of the first entry to send again in fast recovery, or the length of the queue. */
  function FirstFast(q: seq<ResendEntry>, room: nat): (i: nat)
    ensures i <= |q|
    ensures i < |q| ==> WantsFastRetransmit(q[i], room)
    ensures forall j :: 0 <= j < i ==> !WantsFastRetransmit(q[j], room)
  {
    if q == [] || WantsFastRetransmit(q[0], room) then 0
    else
      var rest := FirstFast(q[1..], room);
      assert forall j :: 0 <= j < rest ==> q[j + 1] == q[1..][j];
      1 + rest
  }

  function PollFast(s: TxState, room: nat): (TxState, PollResult<DataChunk>) {
    var i := FirstFast(s.resend, room);
    if i == |s.resend| then (s, Nothing)
    else
      var e := s.resend[i].(markedWasFastRetransmit := true, markedForFastRetransmit := false);
      (s.(resend := s.resend[i := e]), Polled(e.data))
  }

  function PollData(s: TxState, limit: nat, packed: nat, now: nat): (TxState, PollResult<DataChunk>) {
    if s.pmtu <= packed then (s, Nothing)
    else
      var limit := Min(limit, s.pmtu - packed);
      if limit <= 16 then (s, Nothing)
      else if s.window.phase.LossRecovery? then PollLost(s, limit - 16, now)
      else if s.window.phase.FastRecovery? then PollFast(s, limit - 16)
      else PollNew(s, limit - 16, now)
  }

  // ----- acknowledgements -----

  predicate AckedBy(e: ResendEntry, cumTsn: u32) { TsnCompare(e.data.tsn, cumTsn) != Greater }

  /** From entry `i` on, the index of the first entry that the cumulative TSN does not cover. */
  function AckedUpTo(q: seq<ResendEntry>, cumTsn: u32, i: nat): (k: nat)
    requires i <= |q|
    ensures i <= k <= |q|
    ensures forall j :: i <= j < k ==> AckedBy(q[j], cumTsn)
    ensures k < |q| ==> !AckedBy(q[k], cumTsn)
    decreases |q| - i
  {
    if i < |q| && AckedBy(q[i], cumTsn) then AckedUpTo(q, cumTsn, i + 1) else i
  }

  /** How many entries at the front of the queue the cumulative TSN covers. */
  function AckedCount(q: seq<ResendEntry>, cumTsn: u32): nat { AckedUpTo(q, cumTsn, 0) }

  /** A gap block as the sender reads it: from the first TSN up to, not including, the second. */
  function BlockTsns(cumTsn: u32, b: (u16, u16)): (u32, u32) {
    ((cumTsn + b.0) % TWO32, (cumTsn + b.1) % TWO32)
  }

  /** The walk over queue and blocks side by side; returns the marked queue and the newly credited bytes. */
  function GapWalk(q: seq<ResendEntry>, blocks: seq<(u16, u16)>, cumTsn: u32): (seq<ResendEntry>, nat)
    decreases |q| + |blocks|
  {
    if q == [] || blocks == [] then (q, 0)
    else
      var e, (lo, hi) := q[0], BlockTsns(cumTsn, blocks[0]);
      if e.partiallyAcked then
        var (rest, n) := GapWalk(q[1..], blocks, cumTsn);
        ([e] + rest, n)
      else if TsnCompare(e.data.tsn, lo) == Less then
        var (rest, n) := GapWalk(q[1..], blocks, cumTsn);
        ([e.(markedForFastRetransmit := true)] + rest, n)
      else if TsnCompare(e.data.tsn, hi) == Less then
        var (rest, n) := GapWalk(q[1..], blocks, cumTsn);
        ([e.(partiallyAcked := true)] + rest, n + |e.data.buf|)
      else GapWalk(q, blocks[1..], cumTsn)
  }

  function ProcessGapBlocks(s: TxState, sack: SelectiveAck, fullyAcked: nat, inFlightBefore: int): TxState {
    var (q, partial) := GapWalk(s.resend, sack.blocks, sack.cumTsn);
    s.(resend := q, window := C.BytesAcked(s.window, partial, fullyAcked, inFlightBefore))
  }

  /** What a SACK leaves of the peer's receive window once everything in flight has arrived. */
  function WindowAfter(sack: SelectiveAck, inFlight: int): u32 {
    SaturatingSub(sack.aRwnd, inFlight % TWO32)
  }

  function DuplicateSack(s: TxState, sack: SelectiveAck): TxState {
    var s1 := s.(peerWindow := WindowAfter(sack, s.inFlight), duplicatedAcks := s.duplicatedAcks + 1);
    var s2 := if s1.duplicatedAcks >= 2 && s1.resend != [] then s1.(window := C.EnterFastRecovery(s1.window)) else s1;
    ProcessGapBlocks(s2, sack, 0, s.inFlight)
  }

  /** Forgets the acknowledged front of the queue. */
  function Advance(s: TxState, cumTsn: u32): TxState {
    var k := AckedCount(s.resend, cumTsn);
    var acked := QueuedBytes(s.resend[..k]);
    s.(lastAcked := cumTsn, duplicatedAcks := 0, resend := s.resend[k..],
       outBuffered := s.outBuffered - acked, inFlight := s.inFlight - acked)
  }

  /** What a SACK that advances the cumulative TSN does, except for the timer. */
  function Absorb(s: TxState, sack: SelectiveAck, now: nat): TxState {
    var acked := QueuedBytes(s.resend[..AckedCount(s.resend, sack.cumTsn)]);
    var t := ProcessGapBlocks(Advance(s, sack.cumTsn), sack, acked, s.inFlight);
    t.(peerWindow := WindowAfter(sack, t.inFlight), rtt := R.Acked(t.rtt, sack.cumTsn, now))
  }

  function NewSack(s: TxState, sack: SelectiveAck, now: nat): TxState {
    var t := Absorb(s, sack, now);
    if QueuedBytes(s.resend[..AckedCount(s.resend, sack.cumTsn)]) == 0 then t
    else if t.inFlight > 0 then ArmRto(t, now)
    else t.(rtoTimer := None)
  }

  function HandleSack(s: TxState, sack: SelectiveAck, now: nat): TxState {
    match TsnCompare(s.lastAcked, sack.cumTsn)
    case Greater => s
    case Equal => DuplicateSack(s, sack)
    case Less => NewSack(s, sack, now)
  }

  // ----- timeouts -----

  function MarkLate(e: ResendEntry, rto: nat, at: nat): ResendEntry {
    if !e.markedForRetransmit && e.queuedAt + rto <= at
    then e.(markedForRetransmit := true, queuedAt := at)
    else e
  }

  function MarkAllLate(q: seq<ResendEntry>, rto: nat, at: nat): seq<ResendEntry> {
    seq(|q|, i requires 0 <= i < |q| => MarkLate(q[i], rto, at))
  }

  function RtoTimeout(s: TxState, at: nat): TxState {
    if s.resend == [] then s.(rtoTimer := None)
    else
      var rtt := R.Expired(s.rtt);
      ArmRto(s.(window := C.RtoExpired(s.window), rtt := rtt, resend := MarkAllLate(s.resend, R.Duration(rtt), at)), at)
  }

  function ShutdownTimeout(s: TxState, at: nat): TxState {
    match s.shutdown
    case Some(ShutdownSent) => ArmShutdown(s.(sendNext := s.sendNext + [ShutDown(s.peerLastAcked)]), at)
    case Some(ShutdownAckSent) => ArmShutdown(s.(sendNext := s.sendNext + [ShutDownAck]), at)
    case _ => s
  }

  /** The path probing decides whether a heartbeat is due and of which size, and when to look again. */
  datatype ProbePlan = ProbePlan(probe: Option<u32>, next: nat)

  function HeartbeatTimeout(s: TxState, plan: ProbePlan): TxState {
    var s :=
      if plan.probe.None? then s.(heartbeatsUnacked := s.heartbeatsUnacked + 1)
      else s.(sendNext := s.sendNext + [HeartBeatChunk(OurBeat(plan.probe.value))]);
    ArmHeartbeat(s, plan.next)
  }

  predicate IsCurrent(timer: Option<Timer>, timeout: Timer) { timer.Some? && timer.value.marker == timeout.marker }

  function HandleTimeout(s: TxState, timeout: Timer, plan: ProbePlan): TxState {
    var s1 := if IsCurrent(s.rtoTimer, timeout) then RtoTimeout(s, timeout.at) else s;
    var s2 := if IsCurrent(s1.shutdownTimer, timeout) then ShutdownTimeout(s1, timeout.at) else s1;
    if IsCurrent(s2.heartbeatTimer, timeout) then HeartbeatTimeout(s2, plan) else s2
  }

  // ----- notifications and signals -----

  /** What reading an answer to a heartbeat gives: a probe size if it is one of ours. */
  datatype Beat = Ours(probe: u32) | Foreign | BeatPanicked

  /** The type and the length are read without looking whether there are any bytes left. */
  function ReadBeat(beat: HeartBeat): Beat {
    match beat
    case OurBeat(probe) => Beat.Ours(probe)
    case OpaqueBeat(data) =>
      match BigEndian.TakeNumbers(data, [2])
      case None => BeatPanicked
      case Some((typ, rest)) =>
        if typ[0] != 1 then Foreign
        else
          match BigEndian.TakeNumbers(rest, [2])
          case None => BeatPanicked
          case Some((size, value)) =>
            if size[0] == 8 && |value| == 4 then Beat.Ours(BigEndian.Read32(value)) else Foreign
  }

  /** If reading the answer panics, the state after the call is never seen. */
  function HeartbeatAcked(s: TxState, beat: HeartBeat, next: nat): TxState {
    var s := s.(heartbeatsUnacked := 0);
    var read := ReadBeat(beat);
    if !read.Ours? then ArmHeartbeat(s, next)
    else
      var pmtu := Max(s.pmtu, read.probe);
      ArmHeartbeat(s.(pmtu := pmtu, window := C.UpdatePmtu(s.window, pmtu)), next)
  }

  /** `next` is the time at which the path probing wants to look again. */
  function Notify(s: TxState, note: TxNotification, next: nat): TxState {
    match note
    case Send(Data(data)) => s.(outQueue := s.outQueue + [data])
    case Send(SAck(sack)) =>
      var shutdown := if s.shutdown == Some(ShutdownSent) then [ShutDown(sack.cumTsn)] else [];
      s.(peerLastAcked := sack.cumTsn, sendNext := s.sendNext + shutdown + [SAck(sack)])
    case Send(chunk) => s.(sendNext := s.sendNext + [chunk])
    case PrimaryPathChanged(address) => s.(primaryPath := address)
    case PeerSAck(sack, at) => HandleSack(s, sack, at)
    case PeerAbort => s.(shutdown := Some(AbortReceived))
    case Shutdown => if s.shutdown.None? then s.(shutdown := Some(TryingTo)) else s
    case PeerShutdown =>
      if s.shutdown.None? then s.(shutdown := Some(ShutdownReceived))
      else if s.shutdown.value.ShutdownSent? || s.shutdown.value.ShutdownAckSent?
      then s.(sendNext := s.sendNext + [ShutDownAck])
      else s
    case PeerShutdownAck => s.(sendNext := s.sendNext + [ShutDownComplete(false)], shutdown := Some(Complete))
    case PeerShutdownComplete => s.(shutdown := Some(Complete))
    case PeerHeartBeatAck(beat, _) => HeartbeatAcked(s, beat, next)
  }

  function InitiateShutdown(s: TxState): TxState { s.(shutdown := Some(TryingTo)) }

  function PollSignal(s: TxState, limit: nat, packed: nat, now: nat): (TxState, PollResult<Chunk>) {
    var limit := Min(limit, s.pmtu - Min(s.pmtu, packed));
    if s.sendNext != [] then
      var front := s.sendNext[0];
      if SerializedSize(front) <= limit || (front.HeartBeatChunk? && packed == 0)
      then (s.(sendNext := s.sendNext[1..]), Polled(front))
      else (s, Nothing)
    else
      var idle := s.resend == [] && s.outQueue == [];
      match s.shutdown
      case Some(TryingTo) =>
        if idle then (ArmShutdown(s.(shutdown := Some(ShutdownSent)), now), Polled(ShutDown(s.peerLastAcked)))
        else (s, Nothing)
      case Some(ShutdownReceived) =>
        if idle then (ArmShutdown(s.(shutdown := Some(ShutdownAckSent)), now), Polled(ShutDownAck))
        else (s, Nothing)
      case Some(AbortReceived) => (s, Ended)
      case Some(Complete) => (s, Ended)
      case _ => (s, Nothing)
  }

  // ----- everything that can happen to a transmitter -----

  datatype TxOp =
    | TrySendOp(data: Bytes, stream: u16, ppid: u32, immediate: bool, unordered: bool)
    | PollDataOp(limit: nat, packed: nat, now: nat)
    | PollSignalOp(limit: nat, packed: nat, now: nat)
    | TimeoutOp(timeout: Timer, plan: ProbePlan)
    | NotifyOp(note: TxNotification, next: nat)
    | InitiateShutdownOp

  function Apply(s: TxState, op: TxOp): TxState {
    match op
    case TrySendOp(data, stream, ppid, immediate, unordered) => TrySend(s, data, stream, ppid, immediate, unordered).0
    case PollDataOp(limit, packed, now) => PollData(s, limit, packed, now).0
    case PollSignalOp(limit, packed, now) => PollSignal(s, limit, packed, now).0
    case TimeoutOp(timeout, plan) => HandleTimeout(s, timeout, plan)
    case NotifyOp(note, next) => Notify(s, note, next)
    case InitiateShutdownOp => InitiateShutdown(s)
  }

  function Run(s: TxState, ops: seq<TxOp>): TxState {
    if ops == [] then s else Apply(Run(s, ops[..|ops| - 1]), ops[|ops| - 1])
  }
}
