/** Markers tell timers apart: a timeout is handled by the one timer that it belongs to, and not at all once that timer
    was set again. */
module TimerMarkers {
  import opened Basics
  import opened Chunks
  import opened TxModel

  /** The marker of the timer was handed out before. */
  predicate Below(timer: Option<Timer>, counter: nat) { timer.Some? ==> timer.value.marker < counter }

  predicate Differ(a: Option<Timer>, b: Option<Timer>) { a.Some? && b.Some? ==> a.value.marker != b.value.marker }

  /** All markers were handed out before, and no two timers share one. */
  predicate Separate(s: TxState) {
    && Below(s.rtoTimer, s.timerCtr) && Below(s.shutdownTimer, s.timerCtr) && Below(s.heartbeatTimer, s.timerCtr)
    && Differ(s.rtoTimer, s.shutdownTimer) && Differ(s.rtoTimer, s.heartbeatTimer)
    && Differ(s.shutdownTimer, s.heartbeatTimer)
  }

  /** The timer was stopped, left alone, or set with a marker that is not older than `counter`. */
  predicate Renewed(before: Option<Timer>, after: Option<Timer>, counter: nat) {
    after.None? || after == before || after.value.marker >= counter
  }

  /** What one operation does to the timers. */
  predicate Forward(s: TxState, t: TxState) {
    && s.timerCtr <= t.timerCtr <= s.timerCtr + 3
    && Renewed(s.rtoTimer, t.rtoTimer, s.timerCtr) && Renewed(s.shutdownTimer, t.shutdownTimer, s.timerCtr)
    && Renewed(s.heartbeatTimer, t.heartbeatTimer, s.timerCtr)
  }

  /** The counter does not wrap in this operation. */
  predicate HasMarkers(s: TxState) { s.timerCtr + 3 < TWO64 }

  lemma {:induction false} RtoMarks(s: TxState, at: nat)
    requires Separate(s) && s.timerCtr + 1 < TWO64
    ensures var t := RtoTimeout(s, at);
      && Separate(t) && s.timerCtr <= t.timerCtr <= s.timerCtr + 1 && Renewed(s.rtoTimer, t.rtoTimer, s.timerCtr)
      && t.shutdownTimer == s.shutdownTimer && t.heartbeatTimer == s.heartbeatTimer
  {}

  lemma {:induction false} ShutdownMarks(s: TxState, at: nat)
    requires Separate(s) && s.timerCtr + 1 < TWO64
    ensures var t := ShutdownTimeout(s, at);
      && Separate(t) && s.timerCtr <= t.timerCtr <= s.timerCtr + 1
      && Renewed(s.shutdownTimer, t.shutdownTimer, s.timerCtr)
      && t.rtoTimer == s.rtoTimer && t.heartbeatTimer == s.heartbeatTimer
  {}

  lemma {:induction false} HeartbeatMarks(s: TxState, plan: ProbePlan)
    requires Separate(s) && s.timerCtr + 1 < TWO64
    ensures var t := HeartbeatTimeout(s, plan);
      && Separate(t) && s.timerCtr <= t.timerCtr <= s.timerCtr + 1
      && Renewed(s.heartbeatTimer, t.heartbeatTimer, s.timerCtr)
      && t.rtoTimer == s.rtoTimer && t.shutdownTimer == s.shutdownTimer
  {}

  lemma {:induction false} TimeoutMarks(s: TxState, timeout: Timer, plan: ProbePlan)
    requires Separate(s) && HasMarkers(s)
    ensures Separate(HandleTimeout(s, timeout, plan)) && Forward(s, HandleTimeout(s, timeout, plan))
  {
    var s1 := if IsCurrent(s.rtoTimer, timeout) then RtoTimeout(s, timeout.at) else s;
    RtoMarks(s, timeout.at);
    var s2 := if IsCurrent(s1.shutdownTimer, timeout) then ShutdownTimeout(s1, timeout.at) else s1;
    ShutdownMarks(s1, timeout.at);
    HeartbeatMarks(s2, plan);
  }

  /** Only the retransmission timer changes: it was left alone, stopped, or set with the next marker. */
  predicate OnlyRto(s: TxState, t: TxState) {
    && t.shutdownTimer == s.shutdownTimer && t.heartbeatTimer == s.heartbeatTimer
    && (if t.rtoTimer.None? || t.rtoTimer == s.rtoTimer then t.timerCtr == s.timerCtr
        else t.rtoTimer.value.marker == s.timerCtr && t.timerCtr == NextMarker(s.timerCtr))
  }

  lemma {:induction false} OnlyRtoMarks(s: TxState, t: TxState)
    requires Separate(s) && HasMarkers(s) && OnlyRto(s, t)
    ensures Separate(t) && Forward(s, t)
  {}

  lemma {:induction false} PollMarks(s: TxState, limit: nat, packed: nat, now: nat)
    ensures OnlyRto(s, PollData(s, limit, packed, now).0)
  {}

  lemma {:induction false} NewSackMarks(s: TxState, sack: SelectiveAck, now: nat)
    requires Separate(s)
    ensures OnlyRto(s, NewSack(s, sack, now))
  {}

  lemma {:induction false} SackMarks(s: TxState, sack: SelectiveAck, now: nat)
    requires Separate(s)
    ensures OnlyRto(s, HandleSack(s, sack, now))
  {
    NewSackMarks(s, sack, now);
  }

  lemma {:induction false} NoteMarks(s: TxState, note: TxNotification, next: nat)
    requires Separate(s) && HasMarkers(s) && !note.PeerSAck?
    ensures var t := Notify(s, note, next); Separate(t) && Forward(s, t)
  {}

  lemma {:induction false} SignalMarks(s: TxState, limit: nat, packed: nat, now: nat)
    requires Separate(s) && HasMarkers(s)
    ensures var t := PollSignal(s, limit, packed, now).0; Separate(t) && Forward(s, t)
  {}

  lemma {:induction false} MarkStep(s: TxState, op: TxOp)
    requires Separate(s) && HasMarkers(s)
    ensures Separate(Apply(s, op)) && Forward(s, Apply(s, op))
  {
    match op
    case TrySendOp(_, _, _, _, _) =>
    case PollDataOp(limit, packed, now) => 
      PollMarks(s, limit, packed, now);
      OnlyRtoMarks(s, Apply(s, op));
    case PollSignalOp(limit, packed, now) => SignalMarks(s, limit, packed, now);
    case TimeoutOp(timeout, plan) => TimeoutMarks(s, timeout, plan);
    case NotifyOp(note, next) =>
      if note.PeerSAck? {
        SackMarks(s, note.sack, note.at);
        OnlyRtoMarks(s, Apply(s, op));
      } else {
        NoteMarks(s, note, next);
      }
    case InitiateShutdownOp =>
  }

  /** No timer of the state has this marker. */
  predicate Stale(s: TxState, marker: u64) {
    && (s.rtoTimer.Some? ==> s.rtoTimer.value.marker != marker)
    && (s.shutdownTimer.Some? ==> s.shutdownTimer.value.marker != marker)
    && (s.heartbeatTimer.Some? ==> s.heartbeatTimer.value.marker != marker)
  }

  lemma {:induction false} RunMarks(s: TxState, ops: seq<TxOp>)
    requires Separate(s) && s.timerCtr + 3 * |ops| < TWO64
    ensures var t := Run(s, ops); Separate(t) && s.timerCtr <= t.timerCtr <= s.timerCtr + 3 * |ops|
  {
    if ops == [] {
    } else {
      RunMarks(s, ops[..|ops| - 1]);
      MarkStep(Run(s, ops[..|ops| - 1]), ops[|ops| - 1]);
    }
  }

  /** Over every run of fewer than 2^62 operations, a marker names at most one timer; so a timeout is handled as exactly
      that one, and the other two keep running. */
  lemma {:induction false} EachTimeoutHasOneTimer(settings: AssocTxSettings, start: nat, ops: seq<TxOp>,
                                                  timeout: Timer, plan: ProbePlan)
    requires 4 * |ops| < TWO64
    ensures var s := Run(NewTx(settings, start), ops);
      var t := HandleTimeout(s, timeout, plan);
      && Separate(s)
      && (IsCurrent(s.rtoTimer, timeout) ==> t == RtoTimeout(s, timeout.at))
      && (IsCurrent(s.shutdownTimer, timeout) ==> t == ShutdownTimeout(s, timeout.at))
      && (IsCurrent(s.heartbeatTimer, timeout) ==> t == HeartbeatTimeout(s, plan))
      && (Stale(s, timeout.marker) ==> t == s)
  {
    RunMarks(NewTx(settings, start), ops);
    OneTimer(Run(NewTx(settings, start), ops), timeout, plan);
  }

  lemma {:induction false} OneTimer(s: TxState, timeout: Timer, plan: ProbePlan)
    requires Separate(s) && s.timerCtr + 1 < TWO64
    ensures var t := HandleTimeout(s, timeout, plan);
      && (IsCurrent(s.rtoTimer, timeout) ==> t == RtoTimeout(s, timeout.at))
      && (IsCurrent(s.shutdownTimer, timeout) ==> t == ShutdownTimeout(s, timeout.at))
      && (IsCurrent(s.heartbeatTimer, timeout) ==> t == HeartbeatTimeout(s, plan))
      && (Stale(s, timeout.marker) ==> t == s)
  {
    RtoMarks(s, timeout.at);
    ShutdownMarks(s, timeout.at);
  }

  /** A timeout of a timer that was set again, or stopped, is never handled later on. */
  lemma {:induction false} StaleStaysStale(s: TxState, ops: seq<TxOp>, marker: u64)
    requires Separate(s) && s.timerCtr + 3 * |ops| < TWO64 && marker < s.timerCtr && Stale(s, marker)
    ensures Stale(Run(s, ops), marker)
  {
    if ops == [] {
    } else {
      var before := ops[..|ops| - 1];
      RunMarks(s, before);
      StaleStaysStale(s, before, marker);
      MarkStep(Run(s, before), ops[|ops| - 1]);
    }
  }
}
