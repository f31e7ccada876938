/** A chunk at the front of the resend queue is sent again after a bounded number of timeouts. */
module Retransmission {
  import opened Basics
  import opened SerialNumber
  import opened Chunks
  import opened TxModel
  import opened TxInvariants
  import C = Congestion
  import R = RoundTrip

  // ----- the timer never runs out before the front was queued -----

  /** At time `clock`: nothing was queued in the future, and the timer is not due before the front was queued. */
  predicate Timely(s: TxState, clock: nat) {
    && R.InRange(s.rtt)
    && (forall i :: 0 <= i < |s.resend| ==> s.resend[i].queuedAt <= clock)
    && (s.resend != [] && s.rtoTimer.Some? ==> s.resend[0].queuedAt <= s.rtoTimer.value.at)
  }

  /** The operation happens at time `clock`; a timeout belongs to a timer that was set and has run out. */
  predicate HappensAt(s: TxState, op: TxOp, clock: nat) {
    match op
    case PollDataOp(_, _, now) => now == clock
    case PollSignalOp(_, _, now) => now == clock
    case NotifyOp(PeerSAck(_, at), _) => at == clock
    case TimeoutOp(timeout, _) =>
      timeout.at <= clock && (IsCurrent(s.rtoTimer, timeout) ==> s.rtoTimer == Some(timeout))
    case _ => true
  }

  /** What a SACK that advances the cumulative TSN means for the queue and the timer. */
  lemma {:induction false} NewSackShape(s: TxState, sack: SelectiveAck, now: nat)
    ensures var t, k := NewSack(s, sack, now), AckedCount(s.resend, sack.cumTsn);
      var acked := QueuedBytes(s.resend[..k]);
      && t.resend == GapWalk(s.resend[k..], sack.blocks, sack.cumTsn).0
      && t.rtt == R.Acked(s.rtt, sack.cumTsn, now)
      && (acked == 0 ==> t.rtoTimer == s.rtoTimer)
      && (acked > 0 && t.rtoTimer.Some? ==> now <= t.rtoTimer.value.at)
  {}

  lemma {:induction false} NewSackTimely(s: TxState, sack: SelectiveAck, clock: nat)
    requires Live(s) && Timely(s, clock)
    ensures Timely(NewSack(s, sack, clock), clock)
  {
    var k := AckedCount(s.resend, sack.cumTsn);
    NewSackShape(s, sack, clock);
    AckedBytes(s.resend, k);
    GapWalkKeepsData(s.resend[k..], sack.blocks, sack.cumTsn);
    R.TimeoutStaysInRange(s.rtt, sack.cumTsn, clock);
  }

  lemma {:induction false} SackTimely(s: TxState, sack: SelectiveAck, clock: nat)
    requires Live(s) && Timely(s, clock)
    ensures Timely(HandleSack(s, sack, clock), clock)
  {
    match TsnCompare(s.lastAcked, sack.cumTsn)
    case Greater =>
    case Equal => GapWalkKeepsData(s.resend, sack.blocks, sack.cumTsn);
    case Less => NewSackTimely(s, sack, clock);
  }

  lemma {:induction false} PollTimely(s: TxState, limit: nat, packed: nat, clock: nat)
    requires Live(s) && Timely(s, clock)
    ensures Timely(PollData(s, limit, packed, clock).0, clock)
  {}

  lemma {:induction false} RtoTimely(s: TxState, timer: Timer, clock: nat)
    requires Timely(s, clock) && s.rtoTimer == Some(timer) && timer.at <= clock
    ensures Timely(RtoTimeout(s, timer.at), clock)
  {}

  /** The other two timers have nothing to do with retransmission. */
  lemma {:induction false} TimeoutTimely(s: TxState, timeout: Timer, plan: ProbePlan, clock: nat)
    requires Timely(s, clock) && timeout.at <= clock && (IsCurrent(s.rtoTimer, timeout) ==> s.rtoTimer == Some(timeout))
    ensures Timely(HandleTimeout(s, timeout, plan), clock)
  {
    var s1 := if IsCurrent(s.rtoTimer, timeout) then RtoTimeout(s, timeout.at) else s;
    if IsCurrent(s.rtoTimer, timeout) {
      RtoTimely(s, timeout, clock);
    }
    var t := HandleTimeout(s, timeout, plan);
    assert t.resend == s1.resend && t.rtoTimer == s1.rtoTimer && t.rtt == s1.rtt;
  }

  lemma {:induction false} TimelyStep(s: TxState, op: TxOp, before: nat, clock: nat)
    requires Live(s) && Timely(s, before) && before <= clock && HappensAt(s, op, clock)
    ensures Timely(Apply(s, op), clock)
  {
    match op
    case TrySendOp(_, _, _, _, _) =>
    case PollDataOp(limit, packed, _) => PollTimely(s, limit, packed, clock);
    case PollSignalOp(_, _, _) =>
    case TimeoutOp(timeout, plan) => TimeoutTimely(s, timeout, plan, clock);
    case NotifyOp(note, _) =>
      if note.PeerSAck? {
        SackTimely(s, note.sack, clock);
      }
    case InitiateShutdownOp =>
  }

  /** An operation and the time at which it happens. */
  type TimedOp = (TxOp, nat)

  function RunTimed(s: TxState, steps: seq<TimedOp>): TxState {
    if steps == [] then s else Apply(RunTimed(s, steps[..|steps| - 1]), steps[|steps| - 1].0)
  }

  /** The time after the steps, which begin at time `start`. */
  function Clock(start: nat, steps: seq<TimedOp>): nat { if steps == [] then start else steps[|steps| - 1].1 }

  /** A run in which time never goes backwards and no empty message is sent. */
  predicate Scheduled(s: TxState, start: nat, steps: seq<TimedOp>) {
    steps == [] ||
    var before, (op, clock) := steps[..|steps| - 1], steps[|steps| - 1];
    && Scheduled(s, start, before) && Clock(start, before) <= clock
    && Clean(op) && SendsData(op) && HappensAt(RunTimed(s, before), op, clock)
  }

  /** What a scheduled run keeps. */
  ghost predicate OnTime(s: TxState, clock: nat) { Sound(s) && Live(s) && Timely(s, clock) }

  lemma {:induction false} OnTimeStep(s: TxState, op: TxOp, before: nat, clock: nat)
    requires OnTime(s, before) && before <= clock && Clean(op) && SendsData(op) && HappensAt(s, op, clock)
    ensures OnTime(Apply(s, op), clock)
  {
    SoundStep(s, op);
    LiveStep(s, op);
    TimelyStep(s, op, before, clock);
  }

  lemma {:induction false} StaysOnTime(s: TxState, start: nat, steps: seq<TimedOp>)
    requires OnTime(s, start) && Scheduled(s, start, steps)
    ensures OnTime(RunTimed(s, steps), Clock(start, steps))
  {
    if steps == [] {
    } else {
      var before := steps[..|steps| - 1];
      var (op, clock) := steps[|steps| - 1];
      StaysOnTime(s, start, before);
      OnTimeStep(RunTimed(s, before), op, Clock(start, before), clock);
    }
  }

  lemma {:induction false} EveryRunIsTimely(settings: AssocTxSettings, start: nat, steps: seq<TimedOp>)
    requires Scheduled(NewTx(settings, start), start, steps)
    ensures OnTime(RunTimed(NewTx(settings, start), steps), Clock(start, steps))
  {
    StaysOnTime(NewTx(settings, start), start, steps);
  }

  // ----- the timer is never set for too long -----

  /** The retransmission timer is due within three seconds, the timeout before the first measurement. */
  predicate DueSoon(s: TxState, clock: nat) {
    s.rtoTimer.Some? ==> s.rtoTimer.value.at <= clock + R.UNMEASURED_RTO
  }

  lemma {:induction false} SackDueSoon(s: TxState, sack: SelectiveAck, clock: nat)
    requires R.InRange(s.rtt) && DueSoon(s, clock)
    ensures DueSoon(HandleSack(s, sack, clock), clock)
  {
    R.TimeoutStaysInRange(s.rtt, sack.cumTsn, clock);
  }

  lemma {:induction false} TimeoutDueSoon(s: TxState, timeout: Timer, plan: ProbePlan, clock: nat)
    requires R.InRange(s.rtt) && DueSoon(s, clock) && timeout.at <= clock
    ensures DueSoon(HandleTimeout(s, timeout, plan), clock)
  {}

  lemma {:induction false} PollDueSoon(s: TxState, limit: nat, packed: nat, clock: nat)
    requires R.InRange(s.rtt) && DueSoon(s, clock)
    ensures DueSoon(PollData(s, limit, packed, clock).0, clock)
  {}

  lemma {:induction false} DueSoonStep(s: TxState, op: TxOp, before: nat, clock: nat)
    requires R.InRange(s.rtt) && DueSoon(s, before) && before <= clock && HappensAt(s, op, clock)
    ensures DueSoon(Apply(s, op), clock)
  {
    match op
    case TrySendOp(_, _, _, _, _) =>
    case PollDataOp(limit, packed, _) => PollDueSoon(s, limit, packed, clock);
    case PollSignalOp(_, _, _) =>
    case TimeoutOp(timeout, plan) => TimeoutDueSoon(s, timeout, plan, clock);
    case NotifyOp(note, _) =>
      if note.PeerSAck? {
        SackDueSoon(s, note.sack, clock);
      }
    case InitiateShutdownOp =>
  }

  /** In every scheduled run, as long as something is in flight the retransmission timer runs out within three seconds.
      */
  lemma {:induction false} TimerIsDueSoon(settings: AssocTxSettings, start: nat, steps: seq<TimedOp>)
    requires Scheduled(NewTx(settings, start), start, steps)
    ensures var s := RunTimed(NewTx(settings, start), steps);
      (s.resend != [] ==> s.rtoTimer.Some?) && DueSoon(s, Clock(start, steps))
  {
    EveryRunIsTimely(settings, start, steps);
    if steps == [] {
    } else {
      var before := steps[..|steps| - 1];
      var (op, clock) := steps[|steps| - 1];
      TimerIsDueSoon(settings, start, before);
      EveryRunIsTimely(settings, start, before);
      DueSoonStep(RunTimed(NewTx(settings, start), before), op, Clock(start, before), clock);
    }
  }

  // ----- waiting for a retransmission -----

  /** The operation is an expiry of the retransmission timer. */
  predicate IsExpiry(s: TxState, op: TxOp) { op.TimeoutOp? && IsCurrent(s.rtoTimer, op.timeout) }

  /** The operation is a poll that returns the chunk. */
  predicate Returns(s: TxState, op: TxOp, chunk: DataChunk) {
    op.PollDataOp? && PollData(s, op.limit, op.packed, op.now).1 == Polled(chunk)
  }

  /** How often the retransmission timer expires in the run. */
  function Expiries(s: TxState, steps: seq<TimedOp>): nat {
    if steps == [] then 0
    else
      var before, op := steps[..|steps| - 1], steps[|steps| - 1].0;
      Expiries(s, before) + (if IsExpiry(RunTimed(s, before), op) then 1 else 0)
  }

  /** Some poll of the run returns the chunk. */
  predicate SentAgain(s: TxState, steps: seq<TimedOp>, chunk: DataChunk) {
    steps != [] &&
    var before, op := steps[..|steps| - 1], steps[|steps| - 1].0;
    SentAgain(s, before, chunk) || Returns(RunTimed(s, before), op, chunk)
  }

  predicate WithoutSacks(steps: seq<TimedOp>) { forall i :: 0 <= i < |steps| ==> !IsSack(steps[i].0) }

  /** A lower bound for the timeout after `k` expiries: it doubles up to the maximum. */
  function Floor(k: nat): nat { if k == 0 then R.MIN_RTO else Min(2 * Floor(k - 1), R.MAX_RTO) }

  /** A lower bound for the age of the front when the timer is due for the `k + 1`-st time. */
  function Age(k: nat): nat { if k == 0 then 0 else Age(k - 1) + Floor(k) }

  lemma {:induction false} AgeOfSeven()
    ensures Age(7) >= R.MAX_RTO
  {}

  lemma {:induction false} AgeGrows(j: nat, k: nat)
    requires j <= k
    ensures Age(j) <= Age(k)
    decreases k
  {
    if j == k {
    } else {
      AgeGrows(j, k - 1);
    }
  }

  /** After `k` expiries the front is marked, or the timeout and the age of the front have grown. */
  ghost predicate Waiting(s: TxState, k: nat, front: DataChunk) {
    && s.resend != [] && s.resend[0].data == front && s.rtoTimer.Some? && R.InRange(s.rtt)
    && (k > 0 ==> s.window.phase == C.LossRecovery)
    && (k >= 8 ==> s.resend[0].markedForRetransmit)
    && var e := s.resend[0];
      || e.markedForRetransmit
      || (s.rtt.uninited && e.queuedAt + (if k > 0 then R.UNMEASURED_RTO else 0) <= s.rtoTimer.value.at)
      || (!s.rtt.uninited && Floor(k) <= s.rtt.rto && e.queuedAt + Age(k) <= s.rtoTimer.value.at)
  }

  lemma {:induction false} OneExpiry(s: TxState, k: nat, front: DataChunk, plan: ProbePlan)
    requires Waiting(s, k, front)
    ensures Waiting(HandleTimeout(s, s.rtoTimer.value, plan), k + 1, front)
  {
    var timer := s.rtoTimer.value;
    var t := RtoTimeout(s, timer.at);
    var u := HandleTimeout(s, timer, plan);
    assert u.resend == t.resend && u.rtoTimer == t.rtoTimer && u.rtt == t.rtt && u.window == t.window;
    assert t.resend[0] == MarkLate(s.resend[0], R.Duration(t.rtt), timer.at);
    R.TimeoutStaysInRange(s.rtt, 0, 0);
    assert Age(k + 1) == Age(k) + Floor(k + 1);
    if k >= 7 {
      AgeOfSeven();
      AgeGrows(7, k);
    }
  }

  /** The front, its timer, the timeout and the phase are as they were. */
  predicate SameFront(s: TxState, t: TxState) {
    && s.resend != [] && t.resend != [] && t.resend[0] == s.resend[0] && t.rtoTimer == s.rtoTimer
    && t.rtt.uninited == s.rtt.uninited && t.rtt.rto == s.rtt.rto && t.window.phase == s.window.phase
  }

  lemma {:induction false} PollKeepsFront(s: TxState, limit: nat, packed: nat, now: nat)
    requires s.resend != [] && s.rtoTimer.Some? && !Returns(s, PollDataOp(limit, packed, now), s.resend[0].data)
    ensures SameFront(s, PollData(s, limit, packed, now).0)
  {}

  lemma {:induction false} OtherTimersKeepFront(s: TxState, timeout: Timer, plan: ProbePlan)
    requires s.resend != [] && !IsCurrent(s.rtoTimer, timeout)
    ensures SameFront(s, HandleTimeout(s, timeout, plan))
  {}

  /** Nothing but a SACK, an expiry of its timer or a poll that returns it touches the front. */
  lemma {:induction false} OthersKeepFront(s: TxState, op: TxOp)
    requires s.resend != [] && s.rtoTimer.Some? && Clean(op)
    requires !IsSack(op) && !IsExpiry(s, op) && !Returns(s, op, s.resend[0].data)
    ensures SameFront(s, Apply(s, op))
  {
    if op.PollDataOp? {
      PollKeepsFront(s, op.limit, op.packed, op.now);
    } else if op.TimeoutOp? {
      OtherTimersKeepFront(s, op.timeout, op.plan);
    }
  }

  lemma {:induction false} StillWaiting(s: TxState, t: TxState, k: nat, front: DataChunk)
    requires Waiting(s, k, front) && SameFront(s, t) && R.InRange(t.rtt)
    ensures Waiting(t, k, front)
  {}

  lemma {:induction false} WaitingStep(s: TxState, op: TxOp, before: nat, clock: nat, k: nat, front: DataChunk)
    requires OnTime(s, before) && before <= clock && Clean(op) && SendsData(op) && HappensAt(s, op, clock)
    requires Waiting(s, k, front) && !IsSack(op) && !Returns(s, op, front)
    ensures Waiting(Apply(s, op), if IsExpiry(s, op) then k + 1 else k, front)
  {
    if IsExpiry(s, op) {
      OneExpiry(s, k, front, op.plan);
    } else {
      OthersKeepFront(s, op);
      OnTimeStep(s, op, before, clock);
      StillWaiting(s, Apply(s, op), k, front);
    }
  }

  /** While no SACK arrives and no poll returns the front, the expiries are counted. */
  lemma {:induction false} KeepsWaiting(s: TxState, start: nat, steps: seq<TimedOp>, front: DataChunk)
    requires OnTime(s, start) && Waiting(s, 0, front) && Scheduled(s, start, steps) && WithoutSacks(steps)
    ensures SentAgain(s, steps, front) || Waiting(RunTimed(s, steps), Expiries(s, steps), front)
  {
    if steps == [] {
    } else {
      var before := steps[..|steps| - 1];
      var (op, clock) := steps[|steps| - 1];
      KeepsWaiting(s, start, before, front);
      StaysOnTime(s, start, before);
      if !SentAgain(s, steps, front) {
        WaitingStep(RunTimed(s, before), op, Clock(start, before), clock, Expiries(s, before), front);
      }
    }
  }

  lemma {:induction false} StartsWaiting(s: TxState, clock: nat)
    requires OnTime(s, clock) && s.resend != []
    ensures Waiting(s, 0, s.resend[0].data)
  {}

  /** A marked front fits into a packet of its own, so the next poll of an empty packet returns it. */
  lemma {:induction false} MarkedIsReturned(s: TxState, k: nat, front: DataChunk, limit: nat, now: nat)
    requires Sound(s) && Waiting(s, k, front) && k >= 8 && s.pmtu <= limit
    ensures s.resend[0].markedForRetransmit && PollData(s, limit, 0, now).1 == Polled(front)
  {
    assert |s.resend[0].data.buf| <= s.pmtu - 16;
  }

  /** Retransmission with a bound: take any reachable state with something in flight and any continuation without a
      SACK, with whatever polls, sends, notifications and other timers. Once the retransmission timer has expired
      eight times in it, some poll has returned the front of the queue, or the front is marked and the next poll of
      an empty packet returns it. */
  lemma {:induction false} RetransmissionAfterEightTimeouts(settings: AssocTxSettings, start: nat, steps: seq<TimedOp>,
                                                            more: seq<TimedOp>, limit: nat, now: nat)
    requires Scheduled(NewTx(settings, start), start, steps)
    requires var s := RunTimed(NewTx(settings, start), steps);
      && s.resend != [] && Scheduled(s, Clock(start, steps), more) && WithoutSacks(more) && Expiries(s, more) >= 8
    ensures var s := RunTimed(NewTx(settings, start), steps);
      var front, t := s.resend[0].data, RunTimed(s, more);
      || SentAgain(s, more, front)
      || (&& t.resend != [] && t.resend[0].data == front && t.resend[0].markedForRetransmit
          && (t.pmtu <= limit ==> PollData(t, limit, 0, now).1 == Polled(front)))
  {
    var s := RunTimed(NewTx(settings, start), steps);
    var clock, front := Clock(start, steps), s.resend[0].data;
    EveryRunIsTimely(settings, start, steps);
    StartsWaiting(s, clock);
    KeepsWaiting(s, clock, more, front);
    StaysOnTime(s, clock, more);
    if !SentAgain(s, more, front) && RunTimed(s, more).pmtu <= limit {
      MarkedIsReturned(RunTimed(s, more), Expiries(s, more), front, limit, now);
    }
  }
}
