/** The queue of signals: what the receiver of the same end asked for leaves once and in order, and a SACK that is too
    long for the path keeps everything behind it from leaving. */
module Signals {
  import opened Basics
  import opened Chunks
  import F = Fragmentation
  import opened TxInvariants
  import opened TxModel

  // ----- in order, and once -----

  /** The kinds of signals that only the receiver asks for. */
  predicate IsRequest(c: Chunk) { c.SAck? || c.HeartBeatAckChunk? }

  function Requests(cs: seq<Chunk>): seq<Chunk> {
    if cs == [] then []
    else Requests(cs[..|cs| - 1]) + if IsRequest(cs[|cs| - 1]) then [cs[|cs| - 1]] else []
  }

  /** What an operation asks for, and what it takes off the queue. */
  function Asked(op: TxOp): seq<Chunk> {
    if op.NotifyOp? && op.note.Send? && IsRequest(op.note.chunk) then [op.note.chunk] else []
  }

  function Left(s: TxState, op: TxOp): seq<Chunk> {
    if op.PollSignalOp? && PollSignal(s, op.limit, op.packed, op.now).1.Polled?
       && IsRequest(PollSignal(s, op.limit, op.packed, op.now).1.value)
    then [PollSignal(s, op.limit, op.packed, op.now).1.value]
    else []
  }

  function AllAsked(ops: seq<TxOp>): seq<Chunk> {
    if ops == [] then [] else AllAsked(ops[..|ops| - 1]) + Asked(ops[|ops| - 1])
  }

  function AllLeft(s: TxState, ops: seq<TxOp>): seq<Chunk> {
    if ops == [] then [] else AllLeft(s, ops[..|ops| - 1]) + Left(Run(s, ops[..|ops| - 1]), ops[|ops| - 1])
  }

  lemma {:induction false} RequestsAppend(a: seq<Chunk>, b: seq<Chunk>)
    ensures Requests(a + b) == Requests(a) + Requests(b)
  {
    if b == [] {
      AppendNothing(a);
      AppendNothing(Requests(a));
    } else {
      AppendLast(a, b);
      RequestsAppend(a, b[..|b| - 1]);
    }
  }

  lemma {:induction false} OneRequest(c: Chunk)
    ensures Requests([c]) == if IsRequest(c) then [c] else []
  {
    assert [c][..0] == [];
  }

  lemma {:induction false} QueueGrows(q: seq<Chunk>, c: Chunk)
    ensures Requests(q + [c]) == Requests(q) + if IsRequest(c) then [c] else []
  {
    RequestsAppend(q, [c]);
    OneRequest(c);
  }

  lemma {:induction false} SendAppends(s: TxState, c: Chunk, next: nat)
    requires !c.Data?
    ensures var t := Notify(s, Send(c), next);
      s.sendNext <= t.sendNext && Requests(t.sendNext) == Requests(s.sendNext) + if IsRequest(c) then [c] else []
  {
    if c.SAck? && s.shutdown == Some(ShutdownSent) {
      var first := s.sendNext + [ShutDown(c.sack.cumTsn)];
      QueueGrows(s.sendNext, ShutDown(c.sack.cumTsn));
      QueueGrows(first, c);
      AppendNothing(Requests(s.sendNext));
      assert Notify(s, Send(c), next).sendNext == first + [c];
    } else {
      AppendNothing(s.sendNext);
      QueueGrows(s.sendNext, c);
    }
  }

  /** The queue has grown by signals that nobody asked for. */
  predicate AddsNoRequest(s: TxState, t: TxState) {
    s.sendNext <= t.sendNext && Requests(t.sendNext) == Requests(s.sendNext)
  }

  lemma {:induction false} OtherNoteAppends(s: TxState, note: TxNotification, next: nat)
    requires !note.Send?
    ensures AddsNoRequest(s, Notify(s, note, next))
  {
    if note.PeerSAck? {
      SackKeepsSignals(s, note.sack, note.at);
    } else if note.PeerShutdown? || note.PeerShutdownAck? {
      QueueGrows(s.sendNext, ShutDownAck);
      QueueGrows(s.sendNext, ShutDownComplete(false));
      AppendNothing(Requests(s.sendNext));
    }
  }

  /** Operations other than a poll only append, and requests only if asked. */
  lemma {:induction false} NoteAppends(s: TxState, note: TxNotification, next: nat)
    requires !(note.Send? && note.chunk.Data?)
    ensures s.sendNext <= Notify(s, note, next).sendNext
    ensures Requests(Notify(s, note, next).sendNext) == Requests(s.sendNext) + Asked(NotifyOp(note, next))
  {
    if note.Send? {
      SendAppends(s, note.chunk, next);
    } else {
      OtherNoteAppends(s, note, next);
      AppendNothing(Requests(s.sendNext));
    }
  }

  lemma {:induction false} ShutdownAppends(s: TxState, at: nat)
    ensures AddsNoRequest(s, ShutdownTimeout(s, at))
  {
    QueueGrows(s.sendNext, ShutDown(s.peerLastAcked));
    QueueGrows(s.sendNext, ShutDownAck);
    AppendNothing(Requests(s.sendNext));
  }

  lemma {:induction false} HeartbeatAppends(s: TxState, plan: ProbePlan)
    ensures AddsNoRequest(s, HeartbeatTimeout(s, plan))
  {
    if plan.probe.Some? {
      QueueGrows(s.sendNext, HeartBeatChunk(OurBeat(plan.probe.value)));
      AppendNothing(Requests(s.sendNext));
    }
  }

  lemma {:induction false} RtoAppends(s: TxState, at: nat)
    ensures RtoTimeout(s, at).sendNext == s.sendNext
  {}

  lemma {:induction false} TimeoutAppends(s: TxState, timeout: Timer, plan: ProbePlan)
    ensures AddsNoRequest(s, HandleTimeout(s, timeout, plan))
  {
    var s1 := if IsCurrent(s.rtoTimer, timeout) then RtoTimeout(s, timeout.at) else s;
    var s2 := if IsCurrent(s1.shutdownTimer, timeout) then ShutdownTimeout(s1, timeout.at) else s1;
    RtoAppends(s, timeout.at);
    ShutdownAppends(s1, timeout.at);
    HeartbeatAppends(s2, plan);
  }

  lemma {:induction false} PollTakesFirst(s: TxState, limit: nat, packed: nat, now: nat)
    ensures Left(s, PollSignalOp(limit, packed, now)) + Requests(PollSignal(s, limit, packed, now).0.sendNext)
         == Requests(s.sendNext)
  {
    AppendNothing(Requests(s.sendNext));
    if s.sendNext != [] {
      RequestsAppend([s.sendNext[0]], s.sendNext[1..]);
      OneRequest(s.sendNext[0]);
      assert [s.sendNext[0]] + s.sendNext[1..] == s.sendNext;
      AppendNothing(Requests(s.sendNext[1..]));
    }
  }

  /** What left and what waits, before and after one operation. */
  lemma {:induction false} RequestStep(s: TxState, op: TxOp)
    requires Clean(op)
    ensures Left(s, op) + Requests(Apply(s, op).sendNext) == Requests(s.sendNext) + Asked(op)
  {
    AppendNothing(Requests(s.sendNext));
    AppendNothing(Requests(Apply(s, op).sendNext));
    match op
    case TrySendOp(_, _, _, _, _) =>
    case PollDataOp(limit, packed, now) => PollKeepsSignals(s, limit, packed, now);
    case PollSignalOp(limit, packed, now) => PollTakesFirst(s, limit, packed, now);
    case TimeoutOp(timeout, plan) => TimeoutAppends(s, timeout, plan);
    case NotifyOp(note, next) => NoteAppends(s, note, next);
    case InitiateShutdownOp =>
  }

  lemma {:induction false} Shift(left: seq<Chunk>, waiting: seq<Chunk>, asked: seq<Chunk>, l: seq<Chunk>, w: seq<Chunk>,
                                 a: seq<Chunk>)
    requires left + waiting == asked && l + w == waiting + a
    ensures (left + l) + w == asked + a
  {
    Reassociate(left, l, w);
    Reassociate(left, waiting, a);
  }

  /** In every run the SACKs and heartbeat answers that the receiver asked for leave in the order in which they were
      asked for, each once: those that left, and those that wait, are all that was asked for. */
  lemma {:induction false} RequestsLeaveInOrder(settings: AssocTxSettings, start: nat, ops: seq<TxOp>)
    requires forall i :: 0 <= i < |ops| ==> Clean(ops[i])
    ensures var s := NewTx(settings, start); AllLeft(s, ops) + Requests(Run(s, ops).sendNext) == AllAsked(ops)
  {
    if ops == [] {
    } else {
      var s, before, op := NewTx(settings, start), ops[..|ops| - 1], ops[|ops| - 1];
      RequestsLeaveInOrder(settings, start, before);
      var t := Run(s, before);
      RequestStep(t, op);
      Shift(AllLeft(s, before), Requests(t.sendNext), AllAsked(before), Left(t, op), Requests(Apply(t, op).sendNext),
            Asked(op));
    }
  }

  // ----- a signal that is too long -----

  /** The first signal is too long for a packet of the path, and it is no heartbeat. */
  predicate BlockedSignal(s: TxState) {
    s.sendNext != [] && SerializedSize(s.sendNext[0]) > s.pmtu && !s.sendNext[0].HeartBeatChunk?
  }

  lemma {:induction false} OthersKeepFirst(s: TxState, op: TxOp)
    requires Clean(op) && !op.PollSignalOp?
    ensures s.sendNext <= Apply(s, op).sendNext
  {
    match op
    case TrySendOp(_, _, _, _, _) =>
    case PollDataOp(limit, packed, now) => PollKeepsSignals(s, limit, packed, now);
    case TimeoutOp(timeout, plan) => TimeoutAppends(s, timeout, plan);
    case NotifyOp(note, next) => NoteAppends(s, note, next);
    case InitiateShutdownOp =>
  }

  lemma {:induction false} BlockedSignalStep(s: TxState, op: TxOp)
    requires BlockedSignal(s) && Clean(op)
    ensures s.sendNext <= Apply(s, op).sendNext
    ensures op.PollSignalOp? ==> PollSignal(s, op.limit, op.packed, op.now) == (s, Nothing)
  {
    if !op.PollSignalOp? {
      OthersKeepFirst(s, op);
    }
  }

  /** While the path MTU stays the same, a signal that is too long keeps every signal from leaving, also SHUTDOWN. */
  lemma {:induction false} LongSignalBlocks(s: TxState, ops: seq<TxOp>, limit: nat, packed: nat, now: nat)
    requires BlockedSignal(s) && F.SamePath(s, ops)
    ensures s.sendNext <= Run(s, ops).sendNext && PollSignal(Run(s, ops), limit, packed, now) == (Run(s, ops), Nothing)
  {
    if ops == [] {
      BlockedSignalStep(s, PollSignalOp(limit, packed, now));
    } else {
      var before, op := ops[..|ops| - 1], ops[|ops| - 1];
      F.SamePathBefore(s, ops);
      LongSignalBlocks(s, before, limit, packed, now);
      BlockedSignalStep(Run(s, before), op);
      BlockedSignalStep(Run(s, ops), PollSignalOp(limit, packed, now));
    }
  }

  /** A poll of an empty packet that fills the path returns the first signal exactly if it is not blocked. */
  lemma {:induction false} LeavesExactly(s: TxState, limit: nat, now: nat)
    requires s.sendNext != [] && s.pmtu <= limit
    ensures PollSignal(s, limit, 0, now).1 == (if BlockedSignal(s) then Nothing else Polled(s.sendNext[0]))
  {}

  /** On a new path a SACK is blocked exactly if it has more than 296 blocks and duplicates. */
  lemma {:induction false} LongSackExactly(s: TxState, sack: SelectiveAck)
    requires s.sendNext != [] && s.sendNext[0] == SAck(sack) && s.pmtu == 1200
    ensures BlockedSignal(s) <==> |sack.blocks| + |sack.duplicated| > 296
  {}

  // ----- what a SHUTDOWN says -----

  /** The cumulative TSN of the last SACK that the receiver asked for. */
  function LastSack(ops: seq<TxOp>): u32 {
    if ops == [] then 0
    else
      var op := ops[|ops| - 1];
      if op.NotifyOp? && op.note.Send? && op.note.chunk.SAck? then op.note.chunk.sack.cumTsn
      else LastSack(ops[..|ops| - 1])
  }

  lemma {:induction false} LastSackStep(s: TxState, op: TxOp)
    ensures Apply(s, op).peerLastAcked
         == if op.NotifyOp? && op.note.Send? && op.note.chunk.SAck? then op.note.chunk.sack.cumTsn else s.peerLastAcked
  {
    match op
    case TrySendOp(_, _, _, _, _) =>
    case PollDataOp(limit, packed, now) => PollKeepsSignals(s, limit, packed, now);
    case PollSignalOp(_, _, _) =>
    case TimeoutOp(timeout, _) => RtoKeepsSignals(s, timeout.at);
    case NotifyOp(note, _) =>
      if note.PeerSAck? {
        SackKeepsSignals(s, note.sack, note.at);
      }
    case InitiateShutdownOp =>
  }

  /** In every run, the SHUTDOWN of a sender that has finished acknowledges what its own receiver last acknowledged. */
  lemma {:induction false} ShutdownTellsLastSack(settings: AssocTxSettings, start: nat, ops: seq<TxOp>, limit: nat,
                                                 packed: nat, now: nat)
    ensures var s := Run(NewTx(settings, start), ops);
      s.sendNext == [] && s.shutdown == Some(TryingTo) && s.resend == [] && s.outQueue == [] ==>
        PollSignal(s, limit, packed, now).1 == Polled(ShutDown(LastSack(ops)))
  {
    LastSackIsKept(settings, start, ops);
  }

  lemma {:induction false} LastSackIsKept(settings: AssocTxSettings, start: nat, ops: seq<TxOp>)
    ensures Run(NewTx(settings, start), ops).peerLastAcked == LastSack(ops)
  {
    if ops == [] {
    } else {
      LastSackIsKept(settings, start, ops[..|ops| - 1]);
      LastSackStep(Run(NewTx(settings, start), ops[..|ops| - 1]), ops[|ops| - 1]);
    }
  }
}
