/** What every operation of the transmitter keeps: the queues and their byte counters, the TSNs in the
    resend queue, the retransmission timer and the recovery phases. */
module TxInvariants {
  import opened Basics
  import opened SerialNumber
  import opened Chunks
  import opened TxModel
  import C = Congestion

  // ----- how an operation moves data -----

  /** The part of the state that holds user data. */
  datatype Core = Core(
    outQueue: seq<DataChunk>,
    sent: seq<DataChunk>,
    tsnCounter: u32,
    outBuffered: int,
    inFlight: int,
    limit: nat)

  function CoreOf(s: TxState): Core {
    Core(s.outQueue, DataOf(s.resend), s.tsnCounter, s.outBuffered, s.inFlight, s.outLimit)
  }

  /** The only ways in which data moves. */
  datatype Move =
    | Stay
    | Enqueue(chunk: DataChunk)
    | SendWhole
    | SendFragment(size: nat)
    | Forget(count: nat)

  predicate CanMove(c: Core, m: Move) {
    match m
    case Stay => true
    case Enqueue(_) => true
    case SendWhole => c.outQueue != []
    case SendFragment(k) => c.outQueue != [] && 0 < k < |c.outQueue[0].buf|
    case Forget(k) => k <= |c.sent|
  }

  /** The chunk that a sending move puts on the wire. */
  function Outgoing(c: Core, m: Move): DataChunk
    requires CanMove(c, m) && (m.SendWhole? || m.SendFragment?)
  {
    if m.SendWhole? then c.outQueue[0].(tsn := c.tsnCounter, end := true)
    else Fragment(c.outQueue[0], c.tsnCounter, m.size)
  }

  function Moved(c: Core, m: Move): Core
    requires CanMove(c, m)
  {
    match m
    case Stay => c
    case Enqueue(chunk) => c.(outQueue := c.outQueue + [chunk], outBuffered := c.outBuffered + |chunk.buf|)
    case SendWhole =>
      var p := Outgoing(c, m);
      Core(c.outQueue[1..], c.sent + [p], Increase(c.tsnCounter), c.outBuffered, c.inFlight + |p.buf|, c.limit)
    case SendFragment(k) =>
      var p := Outgoing(c, m);
      Core([Remainder(c.outQueue[0], k)] + c.outQueue[1..], c.sent + [p], Increase(c.tsnCounter),
           c.outBuffered, c.inFlight + |p.buf|, c.limit)
    case Forget(k) =>
      var acked := PayloadBytes(c.sent[..k]);
      c.(sent := c.sent[k..], outBuffered := c.outBuffered - acked, inFlight := c.inFlight - acked)
  }

  function PollMove(s: TxState, limit: nat, packed: nat): Move {
    if s.pmtu <= packed || C.InRecovery(s.window) then Stay
    else
      var room := Min(Min(limit, s.pmtu - packed) - 16, s.peerWindow);
      if Min(limit, s.pmtu - packed) <= 16 || s.outQueue == [] || s.inFlight > s.window.cwnd then Stay
      else if |s.outQueue[0].buf| <= room then SendWhole
      else if |s.outQueue[0].buf| > s.pmtu && room > 0 then SendFragment(room)
      else Stay
  }

  function SackMove(s: TxState, sack: SelectiveAck): Move {
    if TsnCompare(s.lastAcked, sack.cumTsn) == Less
    then Forget(AckedCount(s.resend, sack.cumTsn))
    else Stay
  }

  function MoveOf(s: TxState, op: TxOp): Move {
    match op
    case TrySendOp(data, stream, ppid, immediate, unordered) =>
      if TrySend(s, data, stream, ppid, immediate, unordered).1.Some? then Stay
      else Enqueue(DataChunk(0, stream, s.streams[stream], ppid, data, immediate, unordered, true, true))
    case PollDataOp(limit, packed, _) => PollMove(s, limit, packed)
    case NotifyOp(PeerSAck(sack, _), _) => SackMove(s, sack)
    case _ => Stay
  }

  /** The receiver of the same endpoint never asks for a DATA chunk to be sent. */
  predicate Clean(op: TxOp) { !(op.NotifyOp? && op.note.Send? && op.note.chunk.Data?) }

  predicate IsSack(op: TxOp) { op.NotifyOp? && op.note.PeerSAck? }

  // ----- marking entries moves no data -----

  lemma {:induction false} GapWalkKeepsData(q: seq<ResendEntry>, blocks: seq<(u16, u16)>, cumTsn: u32)
    ensures |GapWalk(q, blocks, cumTsn).0| == |q|
    ensures forall i :: 0 <= i < |q| ==>
      var e := GapWalk(q, blocks, cumTsn).0[i];
      && e.data == q[i].data && e.queuedAt == q[i].queuedAt
      && e.markedForRetransmit == q[i].markedForRetransmit
      && e.markedWasFastRetransmit == q[i].markedWasFastRetransmit
      && (q[i].partiallyAcked ==> e == q[i])
    decreases |q| + |blocks|
  {
    if q == [] || blocks == [] {
    } else {
      var e := q[0];
      var (lo, hi) := BlockTsns(cumTsn, blocks[0]);
      if e.partiallyAcked || TsnCompare(e.data.tsn, lo) == Less || TsnCompare(e.data.tsn, hi) == Less {
        GapWalkKeepsData(q[1..], blocks, cumTsn);
        assert GapWalk(q, blocks, cumTsn).0[1..] == GapWalk(q[1..], blocks, cumTsn).0;
      } else {
        GapWalkKeepsData(q, blocks[1..], cumTsn);
      }
    }
  }

  lemma {:induction false} GapsMoveNothing(s: TxState, sack: SelectiveAck, acked: nat, before: int)
    ensures CoreOf(ProcessGapBlocks(s, sack, acked, before)) == CoreOf(s)
    ensures |ProcessGapBlocks(s, sack, acked, before).resend| == |s.resend|
  {
    GapWalkKeepsData(s.resend, sack.blocks, sack.cumTsn);
    assert DataOf(GapWalk(s.resend, sack.blocks, sack.cumTsn).0) == DataOf(s.resend);
  }

  lemma {:induction false} RtoMovesNothing(s: TxState, at: nat)
    ensures CoreOf(RtoTimeout(s, at)) == CoreOf(s)
  {}

  lemma {:induction false} TimeoutMovesNothing(s: TxState, timeout: Timer, plan: ProbePlan)
    ensures CoreOf(HandleTimeout(s, timeout, plan)) == CoreOf(s)
  {
    RtoMovesNothing(s, timeout.at);
  }

  // ----- every operation is one of the moves -----

  lemma {:induction false} PollIsMove(s: TxState, limit: nat, packed: nat, now: nat)
    ensures var m := PollMove(s, limit, packed);
      && CanMove(CoreOf(s), m) && !m.Enqueue? && !m.Forget?
      && CoreOf(PollData(s, limit, packed, now).0) == Moved(CoreOf(s), m)
      && (m.SendWhole? || m.SendFragment? ==>
        && PollData(s, limit, packed, now).1 == Polled(Outgoing(CoreOf(s), m))
        && |Outgoing(CoreOf(s), m).buf| <= s.pmtu - 16 && |Outgoing(CoreOf(s), m).buf| <= s.peerWindow)
  {
    var m := PollMove(s, limit, packed);
    var (t, result) := PollData(s, limit, packed, now);
    if m.SendWhole? || m.SendFragment? {
      var p := Outgoing(CoreOf(s), m);
      assert DataOf(t.resend) == DataOf(s.resend) + [p];
    } else if result.Polled? {
      assert DataOf(t.resend) == DataOf(s.resend);
    }
  }

  lemma {:induction false} DuplicateSackMovesNothing(s: TxState, sack: SelectiveAck)
    ensures CoreOf(DuplicateSack(s, sack)) == CoreOf(s)
  {
    var s1 := s.(peerWindow := WindowAfter(sack, s.inFlight), duplicatedAcks := s.duplicatedAcks + 1);
    var s2 := if s1.duplicatedAcks >= 2 && s1.resend != [] then s1.(window := C.EnterFastRecovery(s1.window)) else s1;
    GapsMoveNothing(s2, sack, 0, s.inFlight);
  }

  lemma {:induction false} DataOfSplit(q: seq<ResendEntry>, k: nat)
    requires k <= |q|
    ensures DataOf(q[..k]) == DataOf(q)[..k] && DataOf(q[k..]) == DataOf(q)[k..]
  {}

  lemma {:induction false} AdvanceForgets(s: TxState, cumTsn: u32)
    ensures CoreOf(Advance(s, cumTsn)) == Moved(CoreOf(s), Forget(AckedCount(s.resend, cumTsn)))
  {
    DataOfSplit(s.resend, AckedCount(s.resend, cumTsn));
  }

  lemma {:induction false} SackIsMove(s: TxState, sack: SelectiveAck, now: nat)
    ensures var m := SackMove(s, sack);
      CanMove(CoreOf(s), m) && CoreOf(HandleSack(s, sack, now)) == Moved(CoreOf(s), m)
  {
    match TsnCompare(s.lastAcked, sack.cumTsn)
    case Greater =>
    case Equal =>
      DuplicateSackMovesNothing(s, sack);
    case Less =>
      AdvanceForgets(s, sack.cumTsn);
      var acked := QueuedBytes(s.resend[..AckedCount(s.resend, sack.cumTsn)]);
      GapsMoveNothing(Advance(s, sack.cumTsn), sack, acked, s.inFlight);
  }

  /** Whatever happens to a transmitter, its data only moves in one of the five ways. */
  lemma {:induction false} EveryOperationIsAMove(s: TxState, op: TxOp)
    requires Clean(op)
    ensures CanMove(CoreOf(s), MoveOf(s, op)) && CoreOf(Apply(s, op)) == Moved(CoreOf(s), MoveOf(s, op))
  {
    match op
    case TrySendOp(_, _, _, _, _) =>
    case PollDataOp(limit, packed, now) => PollIsMove(s, limit, packed, now);
    case PollSignalOp(_, _, _) =>
    case TimeoutOp(timeout, plan) => TimeoutMovesNothing(s, timeout, plan);
    case NotifyOp(note, _) =>
      if note.PeerSAck? {
        SackIsMove(s, note.sack, note.at);
      }
    case InitiateShutdownOp =>
  }

  // ----- byte counters and TSNs -----

  /** The counters are the sums over the queues, and the send buffer is never overfull. */
  predicate Conserved(c: Core) {
    && c.inFlight == PayloadBytes(c.sent)
    && c.outBuffered == PayloadBytes(c.outQueue) + c.inFlight
    && c.outBuffered <= c.limit
  }

  /** The TSNs in flight are consecutive and end right before the TSN counter. */
  predicate Numbered(c: Core) {
    forall i :: 0 <= i < |c.sent| ==> c.sent[i].tsn == At(c.tsnCounter, i - |c.sent|)
  }

  /** Nothing in flight is too long for a packet of its own. */
  predicate Sized(s: TxState) {
    forall i :: 0 <= i < |s.resend| ==> |s.resend[i].data.buf| <= s.pmtu - 16
  }

  predicate Sound(s: TxState) { Conserved(CoreOf(s)) && Numbered(CoreOf(s)) && Sized(s) }

  lemma {:induction false} MoveConserves(c: Core, m: Move)
    requires Conserved(c) && CanMove(c, m) && (m.Enqueue? ==> c.outBuffered + |m.chunk.buf| <= c.limit)
    ensures Conserved(Moved(c, m))
  {
    match m
    case Stay =>
    case Enqueue(chunk) =>
    case SendWhole =>
      PayloadBytesHead(c.outQueue);
      PayloadBytesConcat(c.sent, [Outgoing(c, m)]);
    case SendFragment(k) =>
      PayloadBytesHead(c.outQueue);
      PayloadBytesConcat(c.sent, [Outgoing(c, m)]);
      PayloadBytesConcat([Remainder(c.outQueue[0], k)], c.outQueue[1..]);
    case Forget(k) =>
      PayloadBytesConcat(c.sent[..k], c.sent[k..]);
      assert c.sent == c.sent[..k] + c.sent[k..];
  }

  lemma {:induction false} MoveNumbers(c: Core, m: Move)
    requires Numbered(c) && CanMove(c, m)
    ensures Numbered(Moved(c, m))
  {
    var d := Moved(c, m);
    if m.SendWhole? || m.SendFragment? {
      forall i | 0 <= i < |d.sent| ensures d.sent[i].tsn == At(d.tsnCounter, i - |d.sent|) {
        AtShift(c.tsnCounter, i - |c.sent|);
      }
    }
  }

  lemma {:induction false} AtShift(t: u32, j: int)
    ensures At(Increase(t), j - 1) == At(t, j)
  {}

  /** What polling data, a SACK or the retransmission timer never touch. */
  predicate SameSignals(s: TxState, t: TxState) {
    && s.pmtu == t.pmtu && s.streams == t.streams && s.shutdown == t.shutdown && s.sendNext == t.sendNext
    && s.shutdownTimer == t.shutdownTimer && s.peerLastAcked == t.peerLastAcked
  }

  lemma {:induction false} PollKeepsSignals(s: TxState, limit: nat, packed: nat, now: nat)
    ensures SameSignals(s, PollData(s, limit, packed, now).0)
  {}

  lemma {:induction false} SackKeepsSignals(s: TxState, sack: SelectiveAck, now: nat)
    ensures SameSignals(s, HandleSack(s, sack, now))
  {}

  lemma {:induction false} RtoKeepsSignals(s: TxState, at: nat)
    ensures SameSignals(s, RtoTimeout(s, at))
  {}

  lemma {:induction false} PmtuGrows(s: TxState, op: TxOp)
    ensures s.pmtu <= Apply(s, op).pmtu
  {
    match op
    case TrySendOp(_, _, _, _, _) =>
    case PollDataOp(limit, packed, now) => PollKeepsSignals(s, limit, packed, now);
    case PollSignalOp(_, _, _) =>
    case TimeoutOp(timeout, _) => RtoKeepsSignals(s, timeout.at);
    case NotifyOp(note, _) =>
      if note.PeerSAck? {
        SackKeepsSignals(s, note.sack, note.at);
      }
    case InitiateShutdownOp =>
  }

  lemma {:induction false} MoveSizes(c: Core, m: Move, size: int)
    requires forall i :: 0 <= i < |c.sent| ==> |c.sent[i].buf| <= size
    requires CanMove(c, m) && (m.SendWhole? || m.SendFragment? ==> |Outgoing(c, m).buf| <= size)
    ensures forall i :: 0 <= i < |Moved(c, m).sent| ==> |Moved(c, m).sent[i].buf| <= size
  {}

  lemma {:induction false} SizedStep(s: TxState, op: TxOp)
    requires Sized(s) && Clean(op)
    ensures Sized(Apply(s, op))
  {
    var m, t := MoveOf(s, op), Apply(s, op);
    EveryOperationIsAMove(s, op);
    if m.SendWhole? || m.SendFragment? {
      MoveFits(s, op);
    }
    MoveSizes(CoreOf(s), m, s.pmtu - 16);
    PmtuGrows(s, op);
    forall i | 0 <= i < |t.resend| ensures |t.resend[i].data.buf| <= t.pmtu - 16 {
      assert t.resend[i].data == CoreOf(t).sent[i];
    }
  }

  lemma {:induction false} SoundStep(s: TxState, op: TxOp)
    requires Sound(s) && Clean(op)
    ensures Sound(Apply(s, op))
  {
    EveryOperationIsAMove(s, op);
    MoveConserves(CoreOf(s), MoveOf(s, op));
    MoveNumbers(CoreOf(s), MoveOf(s, op));
    SizedStep(s, op);
  }

  lemma {:induction false} MoveFits(s: TxState, op: TxOp)
    requires MoveOf(s, op).SendWhole? || MoveOf(s, op).SendFragment?
    ensures CanMove(CoreOf(s), MoveOf(s, op)) && |Outgoing(CoreOf(s), MoveOf(s, op)).buf| <= s.pmtu - 16
  {}

  /** Over every sequence of operations, whatever the peer sends: byte conservation on the sending side
      (fragmentation included) and consecutive TSNs in the resend queue. */
  lemma {:induction false} TransmitterConserves(settings: AssocTxSettings, start: nat, ops: seq<TxOp>)
    requires forall i :: 0 <= i < |ops| ==> Clean(ops[i])
    ensures Sound(Run(NewTx(settings, start), ops))
  {
    if ops == [] {
    } else {
      TransmitterConserves(settings, start, ops[..|ops| - 1]);
      SoundStep(Run(NewTx(settings, start), ops[..|ops| - 1]), ops[|ops| - 1]);
    }
  }

  // ----- the retransmission timer and the recovery phases -----

  predicate NonEmpty(cs: seq<DataChunk>) { forall i :: 0 <= i < |cs| ==> cs[i].buf != [] }

  /** The timer runs exactly while something is in flight, and recovery has something to recover. */
  predicate Guarded(s: TxState) {
    (s.rtoTimer.Some? <==> s.resend != []) && (C.InRecovery(s.window) ==> s.resend != [])
  }

  /** No empty payloads, and the timer and the recovery phases fit the queue. */
  predicate Live(s: TxState) {
    NonEmpty(s.outQueue) && NonEmpty(DataOf(s.resend)) && Guarded(s)
  }

  predicate SendsData(op: TxOp) { op.TrySendOp? ==> op.data != [] }

  lemma {:induction false} PositiveBytes(cs: seq<DataChunk>)
    requires NonEmpty(cs) && cs != []
    ensures PayloadBytes(cs) > 0
  {}

  lemma {:induction false} MoveKeepsNonEmpty(c: Core, m: Move)
    requires NonEmpty(c.outQueue) && NonEmpty(c.sent) && CanMove(c, m) && (m.Enqueue? ==> m.chunk.buf != [])
    ensures NonEmpty(Moved(c, m).outQueue) && NonEmpty(Moved(c, m).sent)
  {}

  /** Nothing acknowledged means nothing forgotten, because no payload is empty. */
  lemma {:induction false} AckedBytes(q: seq<ResendEntry>, k: nat)
    requires NonEmpty(DataOf(q)) && k <= |q|
    ensures QueuedBytes(q[..k]) == 0 <==> k == 0
  {
    DataOfSplit(q, k);
    if k > 0 {
      PositiveBytes(DataOf(q[..k]));
    }
  }

  lemma {:induction false} SackKeepsTimer(s: TxState, sack: SelectiveAck, now: nat)
    requires Sound(s) && Live(s)
    ensures Guarded(HandleSack(s, sack, now))
  {
    match TsnCompare(s.lastAcked, sack.cumTsn)
    case Greater =>
    case Equal =>
      GapWalkKeepsData(s.resend, sack.blocks, sack.cumTsn);
    case Less =>
      var k, t := AckedCount(s.resend, sack.cumTsn), HandleSack(s, sack, now);
      AckedBytes(s.resend, k);
      SackIsMove(s, sack, now);
      MoveConserves(CoreOf(s), SackMove(s, sack));
      MoveKeepsNonEmpty(CoreOf(s), SackMove(s, sack));
      assert |t.resend| == |CoreOf(t).sent| == |s.resend| - k;
      if t.resend != [] {
        PositiveBytes(CoreOf(t).sent);
      }
  }

  lemma {:induction false} TimeoutKeepsSound(s: TxState, timeout: Timer, plan: ProbePlan)
    requires Sound(s)
    ensures Sound(HandleTimeout(s, timeout, plan))
  {
    SoundStep(s, TimeoutOp(timeout, plan));
  }

  lemma {:induction false} TimeoutKeepsGuard(s: TxState, timeout: Timer, plan: ProbePlan)
    requires Guarded(s)
    ensures Guarded(HandleTimeout(s, timeout, plan))
  {}

  lemma {:induction false} PollKeepsGuard(s: TxState, limit: nat, packed: nat, now: nat)
    requires Guarded(s)
    ensures Guarded(PollData(s, limit, packed, now).0)
  {}

  lemma {:induction false} SignalKeepsGuard(s: TxState, limit: nat, packed: nat, now: nat)
    requires Guarded(s)
    ensures Guarded(PollSignal(s, limit, packed, now).0)
  {}

  lemma {:induction false} NoteKeepsGuard(s: TxState, note: TxNotification, next: nat)
    requires Guarded(s) && !note.PeerSAck?
    ensures Guarded(Notify(s, note, next))
  {}

  lemma {:induction false} GuardedStep(s: TxState, op: TxOp)
    requires Sound(s) && Live(s)
    ensures Guarded(Apply(s, op))
  {
    match op
    case TrySendOp(_, _, _, _, _) =>
    case PollDataOp(limit, packed, now) => PollKeepsGuard(s, limit, packed, now);
    case PollSignalOp(limit, packed, now) => SignalKeepsGuard(s, limit, packed, now);
    case TimeoutOp(timeout, plan) => TimeoutKeepsGuard(s, timeout, plan);
    case NotifyOp(note, next) =>
      if note.PeerSAck? {
        SackKeepsTimer(s, note.sack, note.at);
      } else {
        NoteKeepsGuard(s, note, next);
      }
    case InitiateShutdownOp =>
  }

  lemma {:induction false} PayloadsStep(s: TxState, op: TxOp)
    requires NonEmpty(s.outQueue) && NonEmpty(DataOf(s.resend)) && Clean(op) && SendsData(op)
    ensures NonEmpty(Apply(s, op).outQueue) && NonEmpty(DataOf(Apply(s, op).resend))
  {
    EveryOperationIsAMove(s, op);
    MoveKeepsNonEmpty(CoreOf(s), MoveOf(s, op));
    assert CoreOf(Apply(s, op)).outQueue == Apply(s, op).outQueue;
  }

  lemma {:induction false} LiveStep(s: TxState, op: TxOp)
    requires Sound(s) && Live(s) && Clean(op) && SendsData(op)
    ensures Live(Apply(s, op))
  {
    PayloadsStep(s, op);
    GuardedStep(s, op);
  }

  /** In every run without empty messages the retransmission timer is armed exactly while chunks are in
      flight, and no poll ever meets a recovery phase with an empty queue. */
  lemma {:induction false} TimerArmedWhenNeeded(settings: AssocTxSettings, start: nat, ops: seq<TxOp>,
                                                limit: nat, packed: nat, now: nat)
    requires forall i :: 0 <= i < |ops| ==> Clean(ops[i]) && SendsData(ops[i])
    ensures var s := Run(NewTx(settings, start), ops);
      && Live(s) && (s.rtoTimer.Some? <==> s.resend != [])
      && PollData(s, limit, packed, now).1 != Panicked
  {
    if ops == [] {
    } else {
      var init := NewTx(settings, start);
      TimerArmedWhenNeeded(settings, start, ops[..|ops| - 1], limit, packed, now);
      TransmitterConserves(settings, start, ops[..|ops| - 1]);
      LiveStep(Run(init, ops[..|ops| - 1]), ops[|ops| - 1]);
    }
  }
}
