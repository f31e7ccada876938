/** Retransmission after a timeout: not too early, not too often, and when the timer and the round-trip time start anew.
    */
module LossRecovery {
  import opened Basics
  import opened Chunks
  import R = RoundTrip
  import opened Retransmission
  import opened SerialNumber
  import opened TxInvariants
  import opened TxModel

  // ----- not too often -----

  predicate IsRepeat(s: TxState, op: TxOp) {
    op.PollDataOp? && s.window.phase.LossRecovery? && PollData(s, op.limit, op.packed, op.now).1.Polled?
  }

  function Repeats(s: TxState, ops: seq<TxOp>): nat {
    if ops == [] then 0
    else Repeats(s, ops[..|ops| - 1]) + if IsRepeat(Run(s, ops[..|ops| - 1]), ops[|ops| - 1]) then 1 else 0
  }

  function ExpiriesIn(s: TxState, ops: seq<TxOp>): nat {
    if ops == [] then 0
    else ExpiriesIn(s, ops[..|ops| - 1]) + if IsExpiry(Run(s, ops[..|ops| - 1]), ops[|ops| - 1]) then 1 else 0
  }

  /** One if the front is marked for retransmission. */
  function Marks(s: TxState): nat { if s.resend != [] && s.resend[0].markedForRetransmit then 1 else 0 }

  lemma {:induction false} LostSpendsMark(s: TxState, room: nat, now: nat)
    requires s.resend != []
    ensures var (t, result) := PollLost(s, room, now);
      && t.resend != [] && t.resend[0].data == s.resend[0].data
      && (if result.Polled? then Marks(s) == 1 && Marks(t) == 0 && result.value == s.resend[0].data
          else Marks(t) == Marks(s))
  {}

  lemma {:induction false} OtherPollsKeepMark(s: TxState, limit: nat, packed: nat, now: nat)
    requires s.resend != [] && !s.window.phase.LossRecovery?
    ensures var t := PollData(s, limit, packed, now).0;
      t.resend != [] && t.resend[0].data == s.resend[0].data && Marks(t) == Marks(s)
  {}

  lemma {:induction false} PollSpendsMark(s: TxState, limit: nat, packed: nat, now: nat)
    requires s.resend != []
    ensures var t, op := PollData(s, limit, packed, now).0, PollDataOp(limit, packed, now);
      && t.resend != [] && t.resend[0].data == s.resend[0].data
      && (if IsRepeat(s, op) then Marks(s) == 1 && Marks(t) == 0 && Returns(s, op, s.resend[0].data)
          else Marks(t) == Marks(s))
  {
    if s.window.phase.LossRecovery? {
      LostSpendsMark(s, SaturatingSub(Min(limit, SaturatingSub(s.pmtu, packed)), 16), now);
    } else {
      OtherPollsKeepMark(s, limit, packed, now);
    }
  }

  /** Only the retransmission timer touches the queue. */
  lemma {:induction false} TimeoutQueue(s: TxState, timeout: Timer, plan: ProbePlan)
    ensures HandleTimeout(s, timeout, plan).resend
         == if IsCurrent(s.rtoTimer, timeout) then RtoTimeout(s, timeout.at).resend else s.resend
  {}

  lemma {:induction false} RtoKeepsFront(s: TxState, at: nat)
    requires s.resend != []
    ensures RtoTimeout(s, at).resend != [] && RtoTimeout(s, at).resend[0].data == s.resend[0].data
  {}

  lemma {:induction false} TimeoutMarks(s: TxState, timeout: Timer, plan: ProbePlan)
    requires s.resend != []
    ensures var t := HandleTimeout(s, timeout, plan);
      && t.resend != [] && t.resend[0].data == s.resend[0].data
      && (!IsCurrent(s.rtoTimer, timeout) ==> Marks(t) == Marks(s))
  {
    TimeoutQueue(s, timeout, plan);
    RtoKeepsFront(s, timeout.at);
  }

  lemma {:induction false} MarkStep(s: TxState, op: TxOp)
    requires s.resend != [] && Clean(op) && !IsSack(op)
    ensures var t := Apply(s, op);
      && t.resend != [] && t.resend[0].data == s.resend[0].data
      && (IsRepeat(s, op) ==> Returns(s, op, s.resend[0].data))
      && (if IsRepeat(s, op) then 1 else 0) + Marks(t) <= Marks(s) + if IsExpiry(s, op) then 1 else 0
  {
    if op.PollDataOp? {
      PollSpendsMark(s, op.limit, op.packed, op.now);
    } else if op.TimeoutOp? {
      TimeoutMarks(s, op.timeout, op.plan);
    }
  }

  /** While no SACK arrives, loss recovery repeats nothing but the front, and at most once per expiry of the timer. */
  lemma {:induction false} RepeatedOncePerExpiry(s: TxState, ops: seq<TxOp>)
    requires s.resend != [] && forall i :: 0 <= i < |ops| ==> Clean(ops[i]) && !IsSack(ops[i])
    ensures var t := Run(s, ops);
      && t.resend != [] && t.resend[0].data == s.resend[0].data
      && Repeats(s, ops) + Marks(t) <= Marks(s) + ExpiriesIn(s, ops)
  {
    if ops == [] {
    } else {
      RepeatedOncePerExpiry(s, ops[..|ops| - 1]);
      MarkStep(Run(s, ops[..|ops| - 1]), ops[|ops| - 1]);
    }
  }

  // ----- not too early -----

  /** When the chunks in flight were sent for the first time, from the times before an operation. */
  function TimesAfter(times: seq<nat>, m: Move, clock: nat): seq<nat> {
    if m.SendWhole? || m.SendFragment? then times + [clock]
    else if m.Forget? && m.count <= |times| then times[m.count..]
    else times
  }

  function SendTimes(s: TxState, steps: seq<TimedOp>): seq<nat> {
    if steps == [] then []
    else
      var before, (op, clock) := steps[..|steps| - 1], steps[|steps| - 1];
      TimesAfter(SendTimes(s, before), MoveOf(RunTimed(s, before), op), clock)
  }

  /** No entry is older than it looks, and a mark was only set after the shortest timeout. */
  predicate Aged(q: seq<ResendEntry>, times: seq<nat>) {
    |q| == |times| && forall i :: 0 <= i < |q| ==>
      && times[i] <= q[i].queuedAt && (q[i].markedForRetransmit ==> times[i] + R.MIN_RTO <= q[i].queuedAt)
  }

  lemma {:induction false} RepeatAges(s: TxState, limit: nat, packed: nat, clock: nat, times: seq<nat>)
    requires Aged(s.resend, times) && PollMove(s, limit, packed).Stay?
    ensures Aged(PollData(s, limit, packed, clock).0.resend, times)
  {}

  lemma {:induction false} SendAges(s: TxState, limit: nat, packed: nat, clock: nat, times: seq<nat>)
    requires Aged(s.resend, times) && !PollMove(s, limit, packed).Stay?
    ensures Aged(PollData(s, limit, packed, clock).0.resend, times + [clock])
  {}

  lemma {:induction false} PollAges(s: TxState, limit: nat, packed: nat, clock: nat, times: seq<nat>)
    requires Aged(s.resend, times)
    ensures Aged(PollData(s, limit, packed, clock).0.resend, TimesAfter(times, PollMove(s, limit, packed), clock))
  {
    if PollMove(s, limit, packed).Stay? {
      RepeatAges(s, limit, packed, clock, times);
    } else {
      SendAges(s, limit, packed, clock, times);
    }
  }

  lemma {:induction false} RtoAges(s: TxState, at: nat, times: seq<nat>)
    requires Aged(s.resend, times) && R.InRange(s.rtt)
    ensures Aged(RtoTimeout(s, at).resend, times)
  {}

  lemma {:induction false} TimeoutAges(s: TxState, timeout: Timer, plan: ProbePlan, times: seq<nat>)
    requires Aged(s.resend, times) && R.InRange(s.rtt)
    ensures Aged(HandleTimeout(s, timeout, plan).resend, times)
  {
    RtoAges(s, timeout.at, times);
    TimeoutQueue(s, timeout, plan);
  }

  lemma {:induction false} SackAges(s: TxState, sack: SelectiveAck, clock: nat, times: seq<nat>)
    requires Aged(s.resend, times)
    ensures Aged(HandleSack(s, sack, clock).resend, TimesAfter(times, SackMove(s, sack), clock))
  {
    match TsnCompare(s.lastAcked, sack.cumTsn)
    case Greater =>
    case Equal => GapWalkKeepsData(s.resend, sack.blocks, sack.cumTsn);
    case Less =>
      var k := AckedCount(s.resend, sack.cumTsn);
      GapWalkKeepsData(s.resend[k..], sack.blocks, sack.cumTsn);
      assert HandleSack(s, sack, clock).resend == GapWalk(s.resend[k..], sack.blocks, sack.cumTsn).0;
  }

  lemma {:induction false} AgeStep(s: TxState, op: TxOp, clock: nat, times: seq<nat>)
    requires Aged(s.resend, times) && R.InRange(s.rtt) && Clean(op) && HappensAt(s, op, clock)
    ensures Aged(Apply(s, op).resend, TimesAfter(times, MoveOf(s, op), clock))
  {
    match op
    case TrySendOp(_, _, _, _, _) =>
    case PollDataOp(limit, packed, _) => PollAges(s, limit, packed, clock, times);
    case PollSignalOp(_, _, _) =>
    case TimeoutOp(timeout, plan) => TimeoutAges(s, timeout, plan, times);
    case NotifyOp(note, _) =>
      if note.PeerSAck? {
        SackAges(s, note.sack, clock, times);
      }
    case InitiateShutdownOp =>
  }

  lemma {:induction false} RunAges(settings: AssocTxSettings, start: nat, steps: seq<TimedOp>)
    requires Scheduled(NewTx(settings, start), start, steps)
    ensures Aged(RunTimed(NewTx(settings, start), steps).resend, SendTimes(NewTx(settings, start), steps))
  {
    if steps == [] {
    } else {
      var s, before := NewTx(settings, start), steps[..|steps| - 1];
      var (op, clock) := steps[|steps| - 1];
      RunAges(settings, start, before);
      EveryRunIsTimely(settings, start, before);
      AgeStep(RunTimed(s, before), op, clock, SendTimes(s, before));
    }
  }

  lemma {:induction false} RepeatIsOld(s: TxState, clock: nat, times: seq<nat>, op: TxOp)
    requires Aged(s.resend, times) && Timely(s, clock) && IsRepeat(s, op)
    ensures s.resend != [] && Returns(s, op, s.resend[0].data) && times[0] + R.MIN_RTO <= clock
  {
    assert s.resend[0].markedForRetransmit;
  }

  /** In every scheduled run: what loss recovery repeats is the front of the queue, and it was sent for the first time
      at least the shortest timeout ago. */
  lemma {:induction false} NotRepeatedEarly(settings: AssocTxSettings, start: nat, steps: seq<TimedOp>, op: TxOp)
    requires Scheduled(NewTx(settings, start), start, steps)
    ensures var s := RunTimed(NewTx(settings, start), steps);
      var times := SendTimes(NewTx(settings, start), steps);
      && |times| == |s.resend|
      && (IsRepeat(s, op) ==>
            s.resend != [] && Returns(s, op, s.resend[0].data) && times[0] + R.MIN_RTO <= Clock(start, steps))
  {
    var s := RunTimed(NewTx(settings, start), steps);
    RunAges(settings, start, steps);
    EveryRunIsTimely(settings, start, steps);
    if IsRepeat(s, op) {
      RepeatIsOld(s, Clock(start, steps), SendTimes(NewTx(settings, start), steps), op);
    }
  }

  // ----- starting anew -----

  /** A SACK that acknowledges a chunk sets the timer for one full timeout, or stops it if nothing is in flight. */
  lemma {:induction false} SackRestartsTimer(s: TxState, sack: SelectiveAck, now: nat)
    requires Sound(s) && Live(s) && TsnCompare(s.lastAcked, sack.cumTsn) == Less
    requires AckedCount(s.resend, sack.cumTsn) > 0
    ensures var t := HandleSack(s, sack, now);
      t.rtoTimer == if t.resend == [] then None else Some(Timer(now + R.Duration(t.rtt), s.timerCtr))
  {
    SackKeepsTimer(s, sack, now);
    AckedBytes(s.resend, AckedCount(s.resend, sack.cumTsn));
  }

  lemma {:induction false} SendStartsMeasuring(s: TxState, limit: nat, packed: nat, sentAt: nat)
    requires PollMove(s, limit, packed).SendWhole? || PollMove(s, limit, packed).SendFragment?
    ensures PollData(s, limit, packed, sentAt).0.rtt == R.Sent(s.rtt, s.tsnCounter, sentAt)
  {}

  lemma {:induction false} SackMeasures(s: TxState, sack: SelectiveAck, at: nat)
    requires TsnCompare(s.lastAcked, sack.cumTsn) == Less
    ensures HandleSack(s, sack, at).rtt == R.Acked(s.rtt, sack.cumTsn, at)
  {}

  /** The round trip of a chunk is the time between its transmission and its SACK. */
  lemma {:induction false} RoundTripIsMeasured(s: TxState, limit: nat, packed: nat, sentAt: nat, sack: SelectiveAck,
                                               at: nat)
    requires PollMove(s, limit, packed).SendWhole? || PollMove(s, limit, packed).SendFragment?
    requires s.rtt.measureFor.None? && sentAt <= at
    requires sack.cumTsn == s.tsnCounter && TsnCompare(s.lastAcked, sack.cumTsn) == Less
    ensures var sent := PollData(s, limit, packed, sentAt).0;
      HandleSack(sent, sack, at).rtt == R.Measured(s.rtt, at - sentAt)
  {
    SendStartsMeasuring(s, limit, packed, sentAt);
    SendKeepsAcked(s, limit, packed, sentAt);
    SackMeasures(PollData(s, limit, packed, sentAt).0, sack, at);
  }

  lemma {:induction false} SendKeepsAcked(s: TxState, limit: nat, packed: nat, now: nat)
    ensures PollData(s, limit, packed, now).0.lastAcked == s.lastAcked
  {}
}
