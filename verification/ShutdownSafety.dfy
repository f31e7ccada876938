/** Shutdown signals leave only when all data was acknowledged, and a closed transmitter stays closed. */
module ShutdownSafety {
  import opened Basics
  import opened Chunks
  import opened TxModel
  import opened TxInvariants

  predicate IsShutdownSignal(c: Chunk) { c.ShutDown? || c.ShutDownAck? }

  /** Nothing is waiting to be sent or acknowledged. */
  predicate Quiet(s: TxState) { s.outQueue == [] && s.resend == [] }

  predicate HasSignal(cs: seq<Chunk>) { exists i :: 0 <= i < |cs| && IsShutdownSignal(cs[i]) }

  /** A shutdown signal was sent or is queued. */
  predicate Announced(s: TxState) {
    s.shutdown == Some(ShutdownSent) || s.shutdown == Some(ShutdownAckSent) || HasSignal(s.sendNext)
  }

  predicate Orderly(s: TxState) { Announced(s) ==> s.shutdown.Some? && Quiet(s) }

  /** The receiver of the same endpoint asks neither for data nor for shutdown signals to be sent. */
  predicate Proper(op: TxOp) { Clean(op) && !(op.NotifyOp? && op.note.Send? && IsShutdownSignal(op.note.chunk)) }

  lemma {:induction false} QuietStays(s: TxState, op: TxOp)
    requires Clean(op) && Quiet(s) && s.shutdown.Some?
    ensures Quiet(Apply(s, op)) && Apply(s, op).shutdown.Some?
  {
    EveryOperationIsAMove(s, op);
    assert CoreOf(Apply(s, op)).sent == [];
    match op
    case TrySendOp(_, _, _, _, _) =>
    case PollDataOp(limit, packed, now) => PollKeepsSignals(s, limit, packed, now);
    case PollSignalOp(_, _, _) =>
    case TimeoutOp(timeout, _) => RtoKeepsSignals(s, timeout.at);
    case NotifyOp(note, _) =>
      if note.PeerSAck? {
        SackKeepsSignals(s, note.sack, note.at);
      }
    case InitiateShutdownOp =>
  }

  lemma {:induction false} QuietForever(s: TxState, ops: seq<TxOp>)
    requires Quiet(s) && s.shutdown.Some? && forall i :: 0 <= i < |ops| ==> Clean(ops[i])
    ensures Quiet(Run(s, ops)) && Run(s, ops).shutdown.Some?
  {
    if ops == [] {
    } else {
      QuietForever(s, ops[..|ops| - 1]);
      QuietStays(Run(s, ops[..|ops| - 1]), ops[|ops| - 1]);
    }
  }

  /** Timers only repeat a signal, and notifications only answer one. */
  lemma {:induction false} NoFirstSignal(s: TxState, op: TxOp)
    requires Proper(op) && !Announced(s) && (op.TimeoutOp? || op.NotifyOp?)
    ensures !Announced(Apply(s, op))
  {
    if op.TimeoutOp? {
      RtoKeepsSignals(s, op.timeout.at);
    } else if op.note.PeerSAck? {
      SackKeepsSignals(s, op.note.sack, op.note.at);
    }
  }

  /** An operation that queues or sends the first shutdown signal finds nothing left to send. */
  lemma {:induction false} AnnouncedWhenQuiet(s: TxState, op: TxOp)
    requires Proper(op) && !Announced(s) && Announced(Apply(s, op))
    ensures Quiet(s) && s.shutdown.Some?
  {
    if op.TimeoutOp? || op.NotifyOp? {
      NoFirstSignal(s, op);
    } else if op.PollDataOp? {
      PollKeepsSignals(s, op.limit, op.packed, op.now);
    }
  }

  lemma {:induction false} OrderlyStep(s: TxState, op: TxOp)
    requires Orderly(s) && Proper(op)
    ensures Orderly(Apply(s, op))
  {
    if Announced(Apply(s, op)) {
      if !Announced(s) {
        AnnouncedWhenQuiet(s, op);
      }
      QuietStays(s, op);
    }
  }

  lemma {:induction false} EveryRunIsOrderly(settings: AssocTxSettings, start: nat, ops: seq<TxOp>)
    requires forall i :: 0 <= i < |ops| ==> Proper(ops[i])
    ensures Orderly(Run(NewTx(settings, start), ops))
  {
    if ops == [] {
    } else {
      EveryRunIsOrderly(settings, start, ops[..|ops| - 1]);
      OrderlyStep(Run(NewTx(settings, start), ops[..|ops| - 1]), ops[|ops| - 1]);
    }
  }

  lemma {:induction false} SignalLeavesQuiet(s: TxState, limit: nat, packed: nat, now: nat)
    requires Orderly(s)
    ensures var (t, result) := PollSignal(s, limit, packed, now);
      result.Polled? && IsShutdownSignal(result.value) ==> Quiet(s) && Quiet(t) && t.shutdown.Some?
  {}

  /** Whenever SHUTDOWN or SHUTDOWN ACK leaves, as a first send or as any repetition, both data queues are
      empty and stay empty in every continuation of the run. */
  lemma {:induction false} ShutdownOnlyAfterAllData(settings: AssocTxSettings, start: nat, ops: seq<TxOp>,
                                 limit: nat, packed: nat, now: nat, later: seq<TxOp>)
    requires forall i :: 0 <= i < |ops| ==> Proper(ops[i])
    requires forall i :: 0 <= i < |later| ==> Clean(later[i])
    ensures var s := Run(NewTx(settings, start), ops);
      var (t, result) := PollSignal(s, limit, packed, now);
      result.Polled? && IsShutdownSignal(result.value) ==> Quiet(s) && Quiet(Run(t, later))
  {
    var s := Run(NewTx(settings, start), ops);
    EveryRunIsOrderly(settings, start, ops);
    SignalLeavesQuiet(s, limit, packed, now);
    var (t, result) := PollSignal(s, limit, packed, now);
    if result.Polled? && IsShutdownSignal(result.value) {
      QuietForever(t, later);
    }
  }

  // ----- closed states -----

  predicate IsClosed(s: TxState) { s.shutdown == Some(Complete) || s.shutdown == Some(AbortReceived) }

  /** From a closed state every operation leads to a closed state, except the one that starts a new shutdown. */
  lemma {:induction false} ClosedStaysClosed(s: TxState, op: TxOp)
    requires IsClosed(s)
    ensures IsClosed(Apply(s, op)) <==> op != InitiateShutdownOp
  {
    match op
    case TrySendOp(_, _, _, _, _) =>
    case PollDataOp(limit, packed, now) => PollKeepsSignals(s, limit, packed, now);
    case PollSignalOp(_, _, _) =>
    case TimeoutOp(timeout, _) => RtoKeepsSignals(s, timeout.at);
    case NotifyOp(note, _) =>
      if note.PeerSAck? {
        SackKeepsSignals(s, note.sack, note.at);
      }
    case InitiateShutdownOp =>
  }
}
