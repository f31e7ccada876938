/** Bounds on the congestion window over whole runs, and what an empty message would break. */
module TxLimits {
  import opened Basics
  import opened SerialNumber
  import opened Chunks
  import opened TxModel
  import opened TxInvariants
  import C = Congestion

  // ----- the congestion window -----

  lemma {:induction false} AckedWithinFlight(s: TxState, cumTsn: u32)
    requires Sound(s)
    ensures QueuedBytes(s.resend[..AckedCount(s.resend, cumTsn)]) <= s.inFlight <= s.outLimit
  {
    var k := AckedCount(s.resend, cumTsn);
    DataOfSplit(s.resend, k);
    assert DataOf(s.resend) == DataOf(s.resend)[..k] + DataOf(s.resend)[k..];
    PayloadBytesConcat(DataOf(s.resend)[..k], DataOf(s.resend)[k..]);
  }

  lemma {:induction false} SackBounded(s: TxState, sack: SelectiveAck, now: nat, p: nat)
    requires Sound(s) && C.Bounded(s.window, p, s.outLimit)
    ensures C.Bounded(HandleSack(s, sack, now).window, p, s.outLimit)
  {
    AckedWithinFlight(s, sack.cumTsn);
    match TsnCompare(s.lastAcked, sack.cumTsn)
    case Greater =>
    case Equal =>
      C.RecoveryBounded(s.window, p, s.outLimit);
      var fast := if s.duplicatedAcks + 1 >= 2 && s.resend != [] then C.EnterFastRecovery(s.window) else s.window;
      C.BytesAckedBounded(fast, GapWalk(s.resend, sack.blocks, sack.cumTsn).1, 0, s.inFlight, p, s.outLimit);
    case Less =>
      var k := AckedCount(s.resend, sack.cumTsn);
      var acked, q := QueuedBytes(s.resend[..k]), s.resend[k..];
      C.BytesAckedBounded(s.window, GapWalk(q, sack.blocks, sack.cumTsn).1, acked, s.inFlight, p, s.outLimit);
      assert HandleSack(s, sack, now).window
          == C.BytesAcked(s.window, GapWalk(q, sack.blocks, sack.cumTsn).1, acked, s.inFlight);
  }

  lemma {:induction false} TimeoutBounded(s: TxState, timeout: Timer, plan: ProbePlan, p: nat)
    requires C.Bounded(s.window, p, s.outLimit)
    ensures C.Bounded(HandleTimeout(s, timeout, plan).window, p, s.outLimit)
  {
    C.RecoveryBounded(s.window, p, s.outLimit);
  }

  /** Everything but a SACK or a timeout leaves the window alone, or only follows the path MTU. */
  lemma {:induction false} OtherBounded(s: TxState, op: TxOp, p: nat)
    requires C.Bounded(s.window, p, s.outLimit) && Apply(s, op).window.pmcds <= p
    requires !op.TimeoutOp? && !(op.NotifyOp? && op.note.PeerSAck?)
    ensures C.Bounded(Apply(s, op).window, p, s.outLimit)
  {}

  lemma {:induction false} WindowStep(s: TxState, op: TxOp, p: nat)
    requires Sound(s) && C.Bounded(s.window, p, s.outLimit) && Apply(s, op).window.pmcds <= p
    ensures C.Bounded(Apply(s, op).window, p, s.outLimit)
  {
    if op.TimeoutOp? {
      TimeoutBounded(s, op.timeout, op.plan, p);
    } else if op.NotifyOp? && op.note.PeerSAck? {
      SackBounded(s, op.note.sack, op.note.at, p);
    } else {
      OtherBounded(s, op, p);
    }
  }

  /** No state of the run uses chunks longer than `p`. */
  predicate ChunksUpTo(s: TxState, ops: seq<TxOp>, p: nat) {
    Run(s, ops).window.pmcds <= p && (ops == [] || ChunksUpTo(s, ops[..|ops| - 1], p))
  }

  /** Over every run, whatever the peer acknowledges, the congestion window stays below a bound that only
      depends on the send buffer and the largest chunk size of the path. */
  lemma {:induction false} WindowIsBounded(settings: AssocTxSettings, start: nat, ops: seq<TxOp>, p: nat)
    requires forall i :: 0 <= i < |ops| ==> Clean(ops[i])
    requires ChunksUpTo(NewTx(settings, start), ops, p)
    ensures var s := Run(NewTx(settings, start), ops);
      s.outLimit == settings.outBufferLimit && s.window.cwnd <= C.LargestWindow(p, settings.outBufferLimit)
      && C.Bounded(s.window, p, s.outLimit)
  {
    if ops == [] {
    } else {
      var before := ops[..|ops| - 1];
      WindowIsBounded(settings, start, before, p);
      TransmitterConserves(settings, start, before);
      var s := Run(NewTx(settings, start), before);
      WindowStep(s, ops[|ops| - 1], p);
      EveryOperationIsAMove(s, ops[|ops| - 1]);
      assert CoreOf(Apply(s, ops[|ops| - 1])).limit == s.outLimit;
    }
  }

  /** New data never takes the bytes in flight further than one packet beyond the congestion window, and
      never uses more than the peer's window. */
  lemma {:induction false} NewDataRespectsWindows(s: TxState, limit: nat, packed: nat, now: nat)
    requires Sound(s) && PollData(s, limit, packed, now).0.tsnCounter != s.tsnCounter
    ensures var t := PollData(s, limit, packed, now).0;
      && t.inFlight <= s.window.cwnd + s.pmtu - 16
      && t.inFlight - s.inFlight == s.peerWindow - t.peerWindow && t.inFlight - s.inFlight <= s.peerWindow
  {
    PollIsMove(s, limit, packed, now);
  }

  // ----- what is accepted -----

  lemma {:induction false} StreamCountStays(s: TxState, op: TxOp)
    ensures |Apply(s, op).streams| == |s.streams|
  {
    match op
    case TrySendOp(_, _, _, _, _) =>
    case PollDataOp(limit, packed, now) => PollKeepsSignals(s, limit, packed, now);
    case PollSignalOp(_, _, _) =>
    case TimeoutOp(timeout, _) => RtoKeepsSignals(s, timeout.at);
    case NotifyOp(note, _) =>
      if note.PeerSAck? {
        SackKeepsSignals(s, note.sack, note.at);
      }
    case InitiateShutdownOp =>
  }

  lemma {:induction false} RunKeepsLimits(settings: AssocTxSettings, start: nat, ops: seq<TxOp>)
    requires forall i :: 0 <= i < |ops| ==> Clean(ops[i])
    ensures var s := Run(NewTx(settings, start), ops);
      |s.streams| == settings.outStreams && s.outLimit == settings.outBufferLimit
  {
    if ops == [] {
    } else {
      var s, op := Run(NewTx(settings, start), ops[..|ops| - 1]), ops[|ops| - 1];
      RunKeepsLimits(settings, start, ops[..|ops| - 1]);
      StreamCountStays(s, op);
      EveryOperationIsAMove(s, op);
      assert CoreOf(Apply(s, op)).limit == s.outLimit;
    }
  }

  /** In every run a message is accepted exactly if the association is open, the stream exists, and it fits into the
      send buffer beside everything that was not acknowledged yet; and the error names the first of these that fails. */
  lemma {:induction false} AcceptedExactly(settings: AssocTxSettings, start: nat, ops: seq<TxOp>, op: TxOp)
    requires (forall i :: 0 <= i < |ops| ==> Clean(ops[i])) && op.TrySendOp?
    ensures var s := Run(NewTx(settings, start), ops);
      var held := PayloadBytes(s.outQueue) + QueuedBytes(s.resend);
      TrySend(s, op.data, op.stream, op.ppid, op.immediate, op.unordered).1 ==
        if s.shutdown.Some? then Some(SendClosed)
        else if op.stream >= settings.outStreams then Some(UnknownStream)
        else if held + |op.data| > settings.outBufferLimit then Some(BufferFull)
        else None
  {
    RunKeepsLimits(settings, start, ops);
    TransmitterConserves(settings, start, ops);
  }

  // ----- the path MTU -----

  /** The size of the probe that an operation reports as answered, if it does. */
  function Answered(op: TxOp): nat {
    if op.NotifyOp? && op.note.PeerHeartBeatAck? && ReadBeat(op.note.beatAck).Ours?
    then ReadBeat(op.note.beatAck).probe
    else 0
  }

  function LargestProbe(ops: seq<TxOp>): nat {
    if ops == [] then 1200 else Max(LargestProbe(ops[..|ops| - 1]), Answered(ops[|ops| - 1]))
  }

  lemma {:induction false} PmtuStep(s: TxState, op: TxOp)
    ensures Apply(s, op).pmtu == Max(s.pmtu, Answered(op))
  {
    match op
    case TrySendOp(_, _, _, _, _) =>
    case PollDataOp(limit, packed, now) => PollKeepsSignals(s, limit, packed, now);
    case PollSignalOp(_, _, _) =>
    case TimeoutOp(timeout, _) => RtoKeepsSignals(s, timeout.at);
    case NotifyOp(note, _) =>
      if note.PeerSAck? {
        SackKeepsSignals(s, note.sack, note.at);
      }
    case InitiateShutdownOp =>
  }

  /** In every run the path MTU is the size of the largest probe that was answered, and at least 1200. */
  lemma {:induction false} PmtuIsLargestProbe(settings: AssocTxSettings, start: nat, ops: seq<TxOp>)
    ensures Run(NewTx(settings, start), ops).pmtu == LargestProbe(ops)
  {
    if ops == [] {
    } else {
      PmtuIsLargestProbe(settings, start, ops[..|ops| - 1]);
      PmtuStep(Run(NewTx(settings, start), ops[..|ops| - 1]), ops[|ops| - 1]);
    }
  }

  // ----- empty messages -----

  /** A SACK that empties the queue ends a recovery phase exactly if it acknowledges at least one byte;
      with nothing but empty chunks in flight the phase stays, and the next poll panics. */
  lemma {:induction false} RecoveryEndsExactlyWithBytes(s: TxState, sack: SelectiveAck, at: nat, limit: nat, now: nat)
    requires Sound(s) && s.window.phase == C.LossRecovery && limit > 16
    requires TsnCompare(s.lastAcked, sack.cumTsn) == Less && AckedCount(s.resend, sack.cumTsn) == |s.resend|
    ensures var t := HandleSack(s, sack, at);
      && t.resend == []
      && (PollData(t, limit, 0, now).1 == Panicked <==> s.inFlight == 0)
  {
    var t := HandleSack(s, sack, at);
    assert s.resend[..|s.resend|] == s.resend && s.resend[|s.resend|..] == [];
    assert GapWalk([], sack.blocks, sack.cumTsn) == ([], 0);
    assert t.window == C.BytesAcked(s.window, 0, s.inFlight, s.inFlight);
    assert t.pmtu == s.pmtu;
  }

  /** Nothing but a single empty chunk is in flight. */
  predicate OnlyEmptyInFlight(s: TxState) {
    |s.resend| == 1 && s.resend[0].data.buf == [] && s.rtoTimer.Some?
  }

  lemma {:induction false} FrontIsSent(s: TxState, limit: nat, now: nat)
    requires |s.outQueue| == 1 && s.outQueue[0].buf == [] && s.resend == [] && s.rtoTimer.None?
    requires s.window.phase == C.SlowStart && s.inFlight <= s.window.cwnd && limit > 16
    ensures OnlyEmptyInFlight(PollData(s, limit, 0, now).0)
  {}

  lemma {:induction false} EmptyIsAccepted(settings: AssocTxSettings)
    requires settings.outStreams > 0
    ensures var s := NewTx(settings, 0);
      var (a, error) := TrySend(s, [], 0, 0, false, false);
      && error == None && |a.outQueue| == 1 && a.outQueue[0].buf == [] && a.resend == [] && a.rtoTimer.None?
      && a.window == s.window && a.inFlight == 0
  {}

  /** A fresh transmitter accepts an empty message and sends it. */
  lemma {:induction false} EmptyMessageIsSent(settings: AssocTxSettings, limit: nat, now: nat)
    requires settings.outStreams > 0 && limit > 16
    ensures var s := NewTx(settings, 0);
      var accepted := TrySend(s, [], 0, 0, false, false);
      var sent := PollData(accepted.0, limit, 0, now).0;
      accepted.1 == None && OnlyEmptyInFlight(sent) && Sound(sent)
  {
    var s := NewTx(settings, 0);
    var a := TrySend(s, [], 0, 0, false, false).0;
    EmptyIsAccepted(settings);
    FrontIsSent(a, limit, now);
    SoundStep(s, TrySendOp([], 0, 0, false, false));
    SoundStep(a, PollDataOp(limit, 0, now));
  }

  /** Once its timer ran out, any SACK that covers it makes the next poll panic. */
  lemma {:induction false} EmptyMessagePanics(s: TxState, sack: SelectiveAck, at: nat, limit: nat, now: nat)
    requires Sound(s) && OnlyEmptyInFlight(s) && limit > 16
    requires TsnCompare(s.lastAcked, sack.cumTsn) == Less && AckedBy(s.resend[0], sack.cumTsn)
    ensures PollData(HandleSack(RtoTimeout(s, s.rtoTimer.value.at), sack, at), limit, 0, now).1 == Panicked
  {
    var late := RtoTimeout(s, s.rtoTimer.value.at);
    RtoMovesNothing(s, s.rtoTimer.value.at);
    assert CoreOf(late) == CoreOf(s);
    assert late.resend[0].data == CoreOf(late).sent[0];
    assert late.inFlight == 0 by { assert PayloadBytes(CoreOf(s).sent[..0]) == 0; }
    assert Sized(late);
    assert AckedCount(late.resend, sack.cumTsn) == 1;
    RecoveryEndsExactlyWithBytes(late, sack, at, limit, now);
  }
}
