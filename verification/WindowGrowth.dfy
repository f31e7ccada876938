/** How the congestion window grows, and what a loss does to it. */
module WindowGrowth {
  import opened Basics
  import C = Congestion
  import opened Chunks
  import opened SerialNumber
  import opened TxInvariants
  import opened TxModel

  // ----- slow start, over a run of the sender -----

  /** A SACK that is not an old one, and that finds the window full. */
  predicate IsFullSack(s: TxState, op: TxOp) {
    IsSack(op) && TsnCompare(s.lastAcked, op.note.sack.cumTsn) != Greater && s.inFlight >= s.window.cwnd
  }

  function FullSacks(s: TxState, ops: seq<TxOp>): nat {
    if ops == [] then 0
    else
      FullSacks(s, ops[..|ops| - 1]) + if IsFullSack(Run(s, ops[..|ops| - 1]), ops[|ops| - 1]) then 1 else 0
  }

  /** No loss, the threshold is not reached, and the path stays the same. */
  predicate StaysInSlowStart(s: TxState, ops: seq<TxOp>) {
    && Run(s, ops).window.phase.SlowStart? && Run(s, ops).window.pmcds == s.window.pmcds
    && (ops == [] || StaysInSlowStart(s, ops[..|ops| - 1]))
  }

  /** What one acknowledgement adds: two chunks, or more if more was acknowledged. */
  function Growth(s: TxState, op: TxOp): int {
    if IsFullSack(s, op) then Max(2 * s.window.pmcds, s.inFlight - Apply(s, op).inFlight) else 0
  }

  function TotalGrowth(s: TxState, ops: seq<TxOp>): int {
    if ops == [] then 0
    else TotalGrowth(s, ops[..|ops| - 1]) + Growth(Run(s, ops[..|ops| - 1]), ops[|ops| - 1])
  }

  lemma {:induction false} SackGrows(s: TxState, sack: SelectiveAck, now: nat)
    requires s.window.phase.SlowStart? && HandleSack(s, sack, now).window.phase.SlowStart?
    ensures var t := HandleSack(s, sack, now);
      t.window.cwnd == s.window.cwnd +
        if TsnCompare(s.lastAcked, sack.cumTsn) != Greater && s.inFlight >= s.window.cwnd
        then Max(2 * s.window.pmcds, s.inFlight - t.inFlight) else 0
  {}

  lemma {:induction false} TimeoutKeepsWindow(s: TxState, timeout: Timer, plan: ProbePlan)
    requires s.window.phase.SlowStart? && HandleTimeout(s, timeout, plan).window.phase.SlowStart?
    ensures HandleTimeout(s, timeout, plan).window.cwnd == s.window.cwnd
  {}

  lemma {:induction false} OthersKeepWindow(s: TxState, op: TxOp)
    requires !IsSack(op) && s.window.phase.SlowStart? && Apply(s, op).window.phase.SlowStart?
    ensures Apply(s, op).window.cwnd == s.window.cwnd
  {
    if op.TimeoutOp? {
      TimeoutKeepsWindow(s, op.timeout, op.plan);
    }
  }

  lemma {:induction false} GrowthStep(s: TxState, op: TxOp)
    requires s.window.phase.SlowStart? && Apply(s, op).window.phase.SlowStart?
    ensures Apply(s, op).window.cwnd == s.window.cwnd + Growth(s, op)
    ensures IsFullSack(s, op) ==> Growth(s, op) >= 2 * s.window.pmcds
    ensures !IsFullSack(s, op) ==> Growth(s, op) == 0
  {
    if IsSack(op) {
      SackGrows(s, op.note.sack, op.note.at);
    } else {
      OthersKeepWindow(s, op);
    }
  }

  lemma {:induction false} OneMoreTime(n: nat, k: nat)
    ensures (n + 1) * k == n * k + k
  {}

  /** A sum of `n` parts, each at least `k`. */
  predicate AddsUp(total: int, n: nat, k: nat) { total >= n * k && (n == 0 ==> total == 0) }

  lemma {:induction false} OnePartMore(total: int, n: nat, k: nat, part: int, more: bool)
    requires AddsUp(total, n, k) && (if more then part >= k else part == 0)
    ensures AddsUp(total + part, if more then n + 1 else n, k)
  {
    OneMoreTime(n, k);
  }

  lemma {:induction false} RunGrows(s: TxState, ops: seq<TxOp>)
    requires StaysInSlowStart(s, ops)
    ensures Run(s, ops).window.cwnd == s.window.cwnd + TotalGrowth(s, ops)
  {
    if ops == [] {
    } else {
      RunGrows(s, ops[..|ops| - 1]);
      GrowthStep(Run(s, ops[..|ops| - 1]), ops[|ops| - 1]);
    }
  }

  lemma {:induction false} GrowthAddsUp(s: TxState, ops: seq<TxOp>, step: nat)
    requires StaysInSlowStart(s, ops) && step == 2 * s.window.pmcds
    ensures AddsUp(TotalGrowth(s, ops), FullSacks(s, ops), step)
  {
    if ops == [] {
    } else {
      var before, op := ops[..|ops| - 1], ops[|ops| - 1];
      var t := Run(s, before);
      GrowthAddsUp(s, before, step);
      GrowthStep(t, op);
      OnePartMore(TotalGrowth(s, before), FullSacks(s, before), step, Growth(t, op), IsFullSack(t, op));
    }
  }

  /** In slow start, the window grows with every SACK that finds it full, by two chunks or by all that was acknowledged,
      and with nothing else: after n such SACKs it has grown by at least 2 * n chunks. */
  lemma {:induction false} SlowStartGrows(s: TxState, ops: seq<TxOp>)
    requires StaysInSlowStart(s, ops)
    ensures Run(s, ops).window.cwnd == s.window.cwnd + TotalGrowth(s, ops)
    ensures TotalGrowth(s, ops) >= FullSacks(s, ops) * (2 * s.window.pmcds)
    ensures FullSacks(s, ops) == 0 ==> TotalGrowth(s, ops) == 0
  {
    RunGrows(s, ops);
    GrowthAddsUp(s, ops, 2 * s.window.pmcds);
  }

  // ----- congestion avoidance -----

  /** What one SACK acknowledges: bytes behind a gap, bytes at the front, and the bytes in flight before it. */
  datatype Acked = Acked(partial: nat, acked: nat, inFlight: nat)

  function After(w: C.Window, acks: seq<Acked>): C.Window {
    if acks == [] then w
    else
      var a := acks[|acks| - 1];
      C.BytesAcked(After(w, acks[..|acks| - 1]), a.partial, a.acked, a.inFlight)
  }

  function TotalAcked(acks: seq<Acked>): nat {
    if acks == [] then 0 else TotalAcked(acks[..|acks| - 1]) + acks[|acks| - 1].partial + acks[|acks| - 1].acked
  }

  /** Every SACK finds the window full. */
  predicate AllFull(w: C.Window, acks: seq<Acked>) {
    acks == [] ||
    (AllFull(w, acks[..|acks| - 1]) && acks[|acks| - 1].inFlight >= After(w, acks[..|acks| - 1]).cwnd)
  }

  /** The sum of the first `n` windows, if each is `step` larger than the one before. */
  function Windows(cwnd: nat, step: nat, n: nat): nat {
    if n == 0 then 0 else Windows(cwnd, step, n - 1) + cwnd + (n - 1) * step
  }

  /** In congestion avoidance, with a full window, the window grows by one step per window of acknowledged bytes: every
      byte is either counted, or was paid for one of the steps. */
  lemma {:induction false} AvoidanceGrows(w: C.Window, acks: seq<Acked>) returns (n: nat)
    requires w.phase.CongestionAvoidance? && AllFull(w, acks)
    ensures var t, step := After(w, acks), Min(w.pmcds, 1000);
      && t.phase.CongestionAvoidance? && t.pmcds == w.pmcds && t.cwnd == w.cwnd + n * step
      && t.partialBytesAcked + Windows(w.cwnd, step, n) == w.partialBytesAcked + TotalAcked(acks)
  {
    if acks == [] {
      n := 0;
    } else {
      var before, a := acks[..|acks| - 1], acks[|acks| - 1];
      n := AvoidanceGrows(w, before);
      var t := After(w, before);
      if t.partialBytesAcked + a.acked + a.partial >= t.cwnd {
        OneMoreTime(n, Min(w.pmcds, 1000));
        n := n + 1;
      }
    }
  }

  /** No SACK finds the window full. */
  predicate NeverFull(w: C.Window, acks: seq<Acked>) { forall i :: 0 <= i < |acks| ==> acks[i].inFlight < w.cwnd }

  /** Without a full window nothing grows, and no more than one window of acknowledged bytes is saved up. */
  lemma {:induction false} CreditIsCapped(w: C.Window, acks: seq<Acked>)
    requires w.phase.CongestionAvoidance? && w.partialBytesAcked <= w.cwnd && NeverFull(w, acks)
    ensures After(w, acks) == w.(partialBytesAcked := Min(w.partialBytesAcked + TotalAcked(acks), w.cwnd))
  {
    if acks == [] {
    } else {
      CreditIsCapped(w, acks[..|acks| - 1]);
      assert acks[|acks| - 1].inFlight < w.cwnd;
    }
  }

  /** Section 7.2.1 of RFC 9260: two to four chunks, and 4404 bytes if that lies between. A new sender starts there. */
  lemma {:induction false} StartsWith4404(pmcds: nat, settings: AssocTxSettings, now: nat)
    ensures 1101 <= pmcds <= 2202 ==> C.StartWindow(pmcds) == 4404
    ensures pmcds <= 1101 ==> C.StartWindow(pmcds) == 4 * pmcds
    ensures pmcds >= 2202 ==> C.StartWindow(pmcds) == 2 * pmcds
    ensures var w := NewTx(settings, now).window; w.cwnd == 4404 && w.phase.SlowStart? && w.ssthresh == TWO64 - 1
  {}

  // ----- after a loss -----

  /** Recovering, or on the way back to the threshold `half`. */
  predicate OnTheWay(w: C.Window, half: nat) { !w.phase.CongestionAvoidance? && w.ssthresh == half }

  predicate NeverAvoids(w: C.Window, acks: seq<Acked>) {
    acks == [] || (NeverAvoids(w, acks[..|acks| - 1]) && !After(w, acks[..|acks| - 1]).phase.CongestionAvoidance?)
  }

  /** Both kinds of losses: when congestion avoidance is reached again, whatever was acknowledged until then, it starts
      with exactly half of the window before the loss. */
  lemma {:induction false} HalvedAfterLoss(w: C.Window, lost: C.Window, acks: seq<Acked>)
    requires lost == C.RtoExpired(w) || (lost == C.EnterFastRecovery(w) && w.phase.CongestionAvoidance?)
    requires NeverAvoids(lost, acks)
    ensures var t := After(lost, acks);
      if t.phase.CongestionAvoidance? then t.cwnd == w.cwnd / 2 else OnTheWay(t, w.cwnd / 2)
  {
    if acks == [] {
    } else {
      HalvedAfterLoss(w, lost, acks[..|acks| - 1]);
    }
  }

  /** The first acknowledged byte ends the recovery, and only that; until then the window does not move. */
  lemma {:induction false} RecoveryEndsExactly(w: C.Window, acks: seq<Acked>)
    requires C.InRecovery(w)
    ensures C.InRecovery(After(w, acks)) <==> forall i :: 0 <= i < |acks| ==> acks[i].acked == 0
    ensures C.InRecovery(After(w, acks)) ==> After(w, acks) == w
  {
    if acks == [] {
    } else {
      var before := acks[..|acks| - 1];
      RecoveryEndsExactly(w, before);
      assert forall i :: 0 <= i < |before| ==> acks[i] == before[i];
    }
  }

  // ----- how fast recovery starts -----

  predicate IsDuplicate(s: TxState, op: TxOp) {
    IsSack(op) && TsnCompare(s.lastAcked, op.note.sack.cumTsn) == Equal
  }

  predicate IsNewSack(s: TxState, op: TxOp) {
    IsSack(op) && TsnCompare(s.lastAcked, op.note.sack.cumTsn) == Less
  }

  function Duplicates(s: TxState, ops: seq<TxOp>): nat {
    if ops == [] then 0
    else
      Duplicates(s, ops[..|ops| - 1]) + if IsDuplicate(Run(s, ops[..|ops| - 1]), ops[|ops| - 1]) then 1 else 0
  }

  /** No SACK acknowledges anything new, and no retransmission timer runs out. */
  predicate NothingNew(s: TxState, ops: seq<TxOp>) {
    && !Run(s, ops).window.phase.LossRecovery?
    && (ops == [] ||
        var before, op := ops[..|ops| - 1], ops[|ops| - 1];
        NothingNew(s, before) && Clean(op) && !IsNewSack(Run(s, before), op))
  }

  /** Congestion avoidance with something in flight, or fast recovery if there were two duplicates. */
  predicate CountsDuplicates(s: TxState) {
    && s.resend != [] && (s.window.phase.CongestionAvoidance? || s.window.phase.FastRecovery?)
    && (s.window.phase.FastRecovery? <==> s.duplicatedAcks >= 2)
  }

  lemma {:induction false} DuplicateCounts(s: TxState, sack: SelectiveAck, now: nat)
    requires CountsDuplicates(s) && TsnCompare(s.lastAcked, sack.cumTsn) != Less
    ensures var t := HandleSack(s, sack, now);
      && CountsDuplicates(t)
      && t.duplicatedAcks == s.duplicatedAcks + if TsnCompare(s.lastAcked, sack.cumTsn) == Equal then 1 else 0
  {
    if TsnCompare(s.lastAcked, sack.cumTsn) == Equal {
      GapWalkKeepsData(s.resend, sack.blocks, sack.cumTsn);
    }
  }

  lemma {:induction false} TimeoutCountsNothing(s: TxState, timeout: Timer, plan: ProbePlan)
    requires CountsDuplicates(s) && !HandleTimeout(s, timeout, plan).window.phase.LossRecovery?
    ensures var t := HandleTimeout(s, timeout, plan); CountsDuplicates(t) && t.duplicatedAcks == s.duplicatedAcks
  {}

  lemma {:induction false} PollCountsNothing(s: TxState, limit: nat, packed: nat, now: nat)
    requires CountsDuplicates(s)
    ensures var t := PollData(s, limit, packed, now).0; CountsDuplicates(t) && t.duplicatedAcks == s.duplicatedAcks
  {}

  lemma {:induction false} DuplicateStep(s: TxState, op: TxOp)
    requires CountsDuplicates(s) && Clean(op) && !IsNewSack(s, op) && !Apply(s, op).window.phase.LossRecovery?
    ensures var t := Apply(s, op);
      CountsDuplicates(t) && t.duplicatedAcks == s.duplicatedAcks + if IsDuplicate(s, op) then 1 else 0
  {
    if IsSack(op) {
      DuplicateCounts(s, op.note.sack, op.note.at);
    } else if op.TimeoutOp? {
      TimeoutCountsNothing(s, op.timeout, op.plan);
    } else if op.PollDataOp? {
      PollCountsNothing(s, op.limit, op.packed, op.now);
    }
  }

  lemma {:induction false} RunCountsDuplicates(s: TxState, ops: seq<TxOp>)
    requires CountsDuplicates(s) && NothingNew(s, ops)
    ensures CountsDuplicates(Run(s, ops)) && Run(s, ops).duplicatedAcks == s.duplicatedAcks + Duplicates(s, ops)
  {
    if ops == [] {
    } else {
      RunCountsDuplicates(s, ops[..|ops| - 1]);
      DuplicateStep(Run(s, ops[..|ops| - 1]), ops[|ops| - 1]);
    }
  }

  lemma {:induction false} NewSackStartsOver(s: TxState, sack: SelectiveAck, at: nat)
    requires TsnCompare(s.lastAcked, sack.cumTsn) == Less
    ensures HandleSack(s, sack, at).duplicatedAcks == 0
  {}

  /** After a SACK that acknowledges something new, while nothing else is acknowledged and no timer runs out: from
      congestion avoidance, fast recovery starts exactly with the second SACK that repeats the cumulative TSN. */
  lemma {:induction false} SecondDuplicateStartsFastRecovery(s: TxState, sack: SelectiveAck, at: nat, ops: seq<TxOp>)
    requires TsnCompare(s.lastAcked, sack.cumTsn) == Less && NothingNew(HandleSack(s, sack, at), ops)
    requires var t := HandleSack(s, sack, at); t.window.phase.CongestionAvoidance? && t.resend != []
    ensures var t := HandleSack(s, sack, at);
      Run(t, ops).window.phase.FastRecovery? <==> Duplicates(t, ops) >= 2
  {
    NewSackStartsOver(s, sack, at);
    RunCountsDuplicates(HandleSack(s, sack, at), ops);
  }
}
