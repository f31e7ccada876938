/** When an arrival is acknowledged, and what a lost last SACK leads to. */
module LostSack {
  import opened AckProgress
  import opened Association
  import opened AssociationSafety
  import opened AssociationSteps
  import opened Basics
  import C = Congestion
  import opened Chunks
  import F = FirstByte
  import RT = RxTracking
  import RxModel
  import opened SerialNumber
  import opened TxInvariants
  import opened TxModel

  // ----- acknowledgements -----

  lemma {:induction false} RepetitionIgnored(r: RxModel.RxState, hist: seq<DataChunk>, init: u32, n: nat, i: nat)
    requires RT.Tracks(r, hist, init, n, 1) && RT.History(hist, init) && RT.IsAccepted(r, init, n, i)
    requires i < |hist| && -TSN_RADIUS <= i - n <= TSN_RADIUS
    ensures RxModel.HandleData(r, hist[i]) == r
  {
    CompareAt(init, i, n);
    RT.CounterIsMaximal(r, hist, init, n);
  }

  /** The SACK is the last note, and describes the state after the arrival. */
  ghost predicate Answered(r: RxModel.RxState, a: RxModel.RxState) {
    a.notes == r.notes + [Send(SAck(RxModel.MakeSack(a)))]
  }

  lemma {:induction false} NextIsAnswered(r: RxModel.RxState, d: DataChunk)
    requires d.tsn == Increase(r.tsnCounter) && RxModel.KnownStream(r, d) && RxModel.Fits(r, d)
    ensures Answered(r, RxModel.HandleData(r, d))
  {
    RxModel.DrainFrame(RxModel.Accept(r, d));
  }

  lemma {:induction false} GapIsAnswered(r: RxModel.RxState, d: DataChunk)
    requires TsnCompare(d.tsn, Increase(r.tsnCounter)) == Greater
    requires !RxModel.Contains(r.reorder, d.tsn) && RxModel.Fits(r, d)
    ensures Answered(r, RxModel.HandleData(r, d))
  {}

  lemma {:induction false} NewArrivalAnswered(r: RxModel.RxState, hist: seq<DataChunk>, init: u32, n: nat, i: nat)
    requires RT.Tracks(r, hist, init, n, 1) && RT.History(hist, init) && RT.ValidStreams(r, hist)
    requires !RT.IsAccepted(r, init, n, i) && i < |hist| && i - n <= TSN_RADIUS && RxModel.Fits(r, hist[i])
    ensures Answered(r, RxModel.HandleData(r, hist[i]))
  {
    if i == n {
      NextIsAnswered(r, hist[i]);
    } else {
      CompareAt(init, i, n);
      GapIsAnswered(r, hist[i]);
    }
  }

  /** An arrival is answered exactly if it is new. */
  lemma {:induction false} SackExactlyForNew(p: Pair, init: u32, i: nat)
    requires Inv(p, init) && CanHappen(p, DeliverData(i))
    ensures var r := RxModel.HandleData(p.rx, p.hist[i]);
      if RT.IsAccepted(p.rx, init, p.taken, i) then r == p.rx else Answered(p.rx, r)
  {
    RoomForMissing(p, init, i);
    if RT.IsAccepted(p.rx, init, p.taken, i) {
      RepetitionIgnored(p.rx, p.hist, init, p.taken, i);
    } else {
      NewArrivalAnswered(p.rx, p.hist, init, p.taken, i);
    }
  }

  /** In every run: an arriving chunk is answered with a SACK exactly if it is accepted for the first time; a repetition
      changes nothing at all. */
  lemma {:induction false} AnsweredExactlyOnce(settings: AssocTxSettings, inStreams: u16, limit: nat, now: nat,
                                               actions: seq<Action>, i: nat)
    requires Compatible(settings, inStreams, limit)
    requires CanHappen(RunPair(NewPair(settings, inStreams, limit, now), actions), DeliverData(i))
    ensures var p := RunPair(NewPair(settings, inStreams, limit, now), actions);
      var r := RxModel.HandleData(p.rx, p.hist[i]);
      if i in Delivered(NewPair(settings, inStreams, limit, now), actions) then r == p.rx else Answered(p.rx, r)
  {
    InvAlways(settings, inStreams, limit, now, actions);
    AcceptedIsDelivered(settings, inStreams, limit, now, actions, i);
    SackExactlyForNew(RunPair(NewPair(settings, inStreams, limit, now), actions), settings.initTsn, i);
  }

  // ----- the last SACK is lost -----

  /** Everything has arrived, but the sender recovers from a loss and keeps everything from chunk `f` on. */
  ghost predicate Stuck(p: Pair, f: int) {
    p.taken == |p.hist| && p.tx.window.phase == C.LossRecovery && Kept(p) == f
  }

  /** Nothing new was sent, and no new SACK. */
  predicate SameTraffic(p: Pair, n: Pair) { n.hist == p.hist && n.sacks == p.sacks }

  /** In loss recovery the sender sends nothing new, and only a SACK ends the phase. */
  lemma {:induction false} RecoveryGoesOn(s: TxState, op: TxOp)
    requires s.window.phase == C.LossRecovery && Clean(op) && !IsSack(op)
    ensures Apply(s, op).window.phase == C.LossRecovery && NewChunks(s, op) == []
  {}

  lemma {:induction false} SenderStaysStuck(p: Pair, init: u32, op: TxOp, f: int)
    requires Inv(p, init) && Stuck(p, f) && CanHappen(p, AtSender(op))
    ensures Stuck(Do(p, AtSender(op)), f) && SameTraffic(p, Do(p, AtSender(op)))
  {
    var n := Do(p, AtSender(op));
    RecoveryGoesOn(p.tx, op);
    AppendNothing(p.hist);
    SenderSends(p, op);
    SentQueue(p, n, MoveOf(p.tx, op));
    SenderOutput(p.tx, op);
    AppendNothing(DataOf(p.tx.resend));
    assert |DataOf(n.tx.resend)| == |n.tx.resend| && |DataOf(p.tx.resend)| == |p.tx.resend|;
  }

  lemma {:induction false} OldIsNotTaken(r: RxModel.RxState, hist: seq<DataChunk>, init: u32, n: nat, i: nat)
    requires RT.Tracks(r, hist, init, n, 1) && RT.History(hist, init) && i < n <= |hist| && n - i <= TSN_RADIUS
    ensures RT.TakenAfter(r, hist[i], n) == n && RT.IsAccepted(r, init, n, i)
  {
    CompareAt(init, i, n);
  }

  lemma {:induction false} RepetitionChangesNothing(p: Pair, i: nat)
    requires CanHappen(p, DeliverData(i)) && RxModel.HandleData(p.rx, p.hist[i]) == p.rx
    requires RT.TakenAfter(p.rx, p.hist[i], p.taken) == p.taken
    ensures Do(p, DeliverData(i)) == p
  {}

  /** Once everything was taken, every chunk is a repetition, and nothing is answered. */
  lemma {:induction false} NothingNewArrives(p: Pair, init: u32, i: nat)
    requires Inv(p, init) && p.taken == |p.hist| && CanHappen(p, DeliverData(i))
    ensures Do(p, DeliverData(i)) == p
  {
    SackExactlyForNew(p, init, i);
    OldIsNotTaken(p.rx, p.hist, init, p.taken, i);
    RepetitionChangesNothing(p, i);
  }

  lemma {:induction false} OldSackKeepsPhase(s: TxState, sack: SelectiveAck, now: nat)
    requires s.window.phase == C.LossRecovery
    requires TsnCompare(s.lastAcked, sack.cumTsn) == Less ==> AckedCount(s.resend, sack.cumTsn) == 0
    ensures var t := HandleSack(s, sack, now);
      t.window.phase == C.LossRecovery && |t.resend| == |s.resend|
  {
    match TsnCompare(s.lastAcked, sack.cumTsn)
    case Greater =>
    case Equal => GapWalkKeepsData(s.resend, sack.blocks, sack.cumTsn);
    case Less =>
      assert s.resend[0..] == s.resend && QueuedBytes(s.resend[..0]) == 0;
      GapWalkKeepsData(s.resend, sack.blocks, sack.cumTsn);
  }

  /** The action delivers a SACK that covers a chunk from `f` on, and that the sender recognizes. */
  ghost predicate FreesAt(p: Pair, init: u32, a: Action, f: int) {
    a.DeliverSack? && CanHappen(p, a) && a.record.covers > f && Recognized(p, init, a.record)
  }

  /** Some action of the continuation does. */
  ghost predicate Frees(p: Pair, init: u32, more: seq<Action>, f: int) {
    exists i :: 0 <= i < |more| && FreesAt(RunPair(p, more[..i]), init, more[i], f)
  }

  /** A SACK that covers nothing new, or is not recognized, acknowledges nothing. */
  lemma {:induction false} IdleSack(p: Pair, init: u32, r: SackRecord)
    requires KeepsUnacked(p, init) && RT.History(p.hist, init) && p.taken <= |p.hist| && Honest(p, init, r)
    requires -TSN_RADIUS <= r.covers - Kept(p) <= TSN_RADIUS && (r.covers > Kept(p) ==> !Recognized(p, init, r))
    ensures TsnCompare(p.tx.lastAcked, r.sack.cumTsn) == Less ==> AckedCount(p.tx.resend, r.sack.cumTsn) == 0
  {
    if r.covers > Kept(p) {
      RecognizedIsNew(p, init, r);
    } else if TsnCompare(p.tx.lastAcked, r.sack.cumTsn) == Less {
      SackOrder(p, init, r);
      ForgetsCovered(p, init, r);
    }
  }

  lemma {:induction false} IdleSackStaysStuck(p: Pair, init: u32, r: SackRecord, now: nat, f: int)
    requires Inv(p, init) && Stuck(p, f) && CanHappen(p, DeliverSack(r, now))
    requires !FreesAt(p, init, DeliverSack(r, now), f)
    ensures Stuck(Do(p, DeliverSack(r, now)), f) && SameTraffic(p, Do(p, DeliverSack(r, now)))
  {
    assert Honest(p, init, r);
    IdleSack(p, init, r);
    OldSackKeepsPhase(p.tx, r.sack, now);
  }

  lemma {:induction false} StuckStep(p: Pair, init: u32, a: Action, f: int)
    requires Inv(p, init) && Stuck(p, f) && !FreesAt(p, init, a, f)
    ensures Stuck(Step(p, a), f) && SameTraffic(p, Step(p, a))
  {
    if CanHappen(p, a) {
      match a
      case AtSender(op) => SenderStaysStuck(p, init, op, f);
      case DeliverData(i) => NothingNewArrives(p, init, i);
      case DeliverSack(r, now) => IdleSackStaysStuck(p, init, r, now, f);
      case DeliverControl(_, _) =>
      case PollMessage =>
      case TakeNotes =>
    }
  }

  /** The SACK that the sender was waiting for takes it out of the state. */
  lemma {:induction false} FreedStep(p: Pair, init: u32, a: Action, f: int)
    requires Inv(p, init) && Kept(p) == f && FreesAt(p, init, a, f)
    ensures Kept(Step(p, a)) > f
  {
    SackAdvances(p, init, a.record, a.now);
  }

  // ----- what the sender forgot it never keeps again -----

  lemma {:induction false} SenderKeepsFront(p: Pair, init: u32, op: TxOp)
    requires KeepsUnacked(p, init) && CanHappen(p, AtSender(op))
    ensures Kept(Do(p, AtSender(op))) == Kept(p)
  {
    var n := Do(p, AtSender(op));
    SenderSends(p, op);
    SentQueue(p, n, MoveOf(p.tx, op));
    GrownTail(p, n, SentBy(CoreOf(p.tx), MoveOf(p.tx, op)));
  }

  lemma {:induction false} SackKeepsLess(p: Pair, r: SackRecord, now: nat)
    requires Sound(p.tx)
    ensures Kept(p.(tx := HandleSack(p.tx, r.sack, now))) >= Kept(p)
  {
    var n := p.(tx := HandleSack(p.tx, r.sack, now));
    SackAcknowledges(p, r, now);
    AckedQueue(p, n, r);
    assert |DataOf(n.tx.resend)| == |n.tx.resend| && |DataOf(p.tx.resend)| == |p.tx.resend|;
  }

  lemma {:induction false} KeptGrows(p: Pair, init: u32, a: Action)
    requires Inv(p, init)
    ensures Kept(Step(p, a)) >= Kept(p)
  {
    if CanHappen(p, a) {
      if a.AtSender? {
        SenderKeepsFront(p, init, a.op);
      } else if a.DeliverSack? {
        SackKeepsLess(p, a.record, a.now);
      }
    }
  }

  // ----- whole continuations -----

  /** Stuck until the SACK arrives, and beyond it from then on. */
  ghost predicate StuckOrFreed(p: Pair, q: Pair, f: int, freed: bool) {
    if freed then Kept(q) > f else Stuck(q, f) && SameTraffic(p, q)
  }

  lemma {:induction false} FreesLater(p: Pair, init: u32, more: seq<Action>, f: int)
    requires more != []
    ensures var before := more[..|more| - 1];
      Frees(p, init, more, f) <==> Frees(p, init, before, f) || FreesAt(RunPair(p, before), init, more[|more| - 1], f)
  {
    var before := more[..|more| - 1];
    assert forall i :: 0 <= i < |before| ==> more[..i] == before[..i] && more[i] == before[i];
    if Frees(p, init, before, f) {
      var i :| 0 <= i < |before| && FreesAt(RunPair(p, before[..i]), init, before[i], f);
      assert FreesAt(RunPair(p, more[..i]), init, more[i], f);
    }
    if Frees(p, init, more, f) {
      var i :| 0 <= i < |more| && FreesAt(RunPair(p, more[..i]), init, more[i], f);
      if i < |before| {
        assert FreesAt(RunPair(p, before[..i]), init, before[i], f);
      }
    }
  }

  lemma {:induction false} StuckOrFreedStep(p: Pair, q: Pair, init: u32, a: Action, f: int, freed: bool)
    requires Inv(q, init) && StuckOrFreed(p, q, f, freed)
    ensures StuckOrFreed(p, Step(q, a), f, freed || FreesAt(q, init, a, f))
  {
    if freed {
      KeptGrows(q, init, a);
    } else if FreesAt(q, init, a, f) {
      FreedStep(q, init, a, f);
    } else {
      StuckStep(q, init, a, f);
    }
  }

  lemma {:induction false} StuckUntilFreed(p: Pair, init: u32, more: seq<Action>, f: int)
    requires Inv(p, init) && Stuck(p, f)
    ensures Inv(RunPair(p, more), init) && StuckOrFreed(p, RunPair(p, more), f, Frees(p, init, more, f))
  {
    if more == [] {
    } else {
      var before, a := more[..|more| - 1], more[|more| - 1];
      StuckUntilFreed(p, init, before, f);
      var q := RunPair(p, before);
      if CanHappen(q, a) {
        InvStep(q, init, a);
      }
      FreesLater(p, init, more, f);
      StuckOrFreedStep(p, q, init, a, f, Frees(p, init, before, f));
    }
  }

  /** A lost last SACK is never made up for: from any state of any run in which everything has arrived and the sender is
      in loss recovery, a continuation leaves that state exactly if it delivers a SACK that was already under way,
      covers more than the sender forgot, and is recognized. Otherwise nothing new is sent and no SACK is written,
      however often the sender repeats what was received. */
  lemma {:induction false} LostSackIsNeverRepeated(settings: AssocTxSettings, inStreams: u16, limit: nat, now: nat,
                                                   actions: seq<Action>, more: seq<Action>)
    requires Compatible(settings, inStreams, limit)
    requires var p := RunPair(NewPair(settings, inStreams, limit, now), actions);
      p.taken == |p.hist| && p.tx.window.phase == C.LossRecovery
    ensures var p := RunPair(NewPair(settings, inStreams, limit, now), actions);
      var freed, q := Frees(p, settings.initTsn, more, Kept(p)), RunPair(p, more);
      && (Stuck(q, Kept(p)) <==> !freed)
      && (!freed ==> SameTraffic(p, q))
  {
    var p := RunPair(NewPair(settings, inStreams, limit, now), actions);
    InvAlways(settings, inStreams, limit, now, actions);
    StuckUntilFreed(p, settings.initTsn, more, Kept(p));
  }

  // ----- a run that gets there -----

  /** One byte is sent and received, and the retransmission timer runs out before its SACK arrives. */
  function LoseSack(plan: ProbePlan): seq<Action> {
    F.SendFirst(false) + [DeliverData(0)] + [AtSender(TimeoutOp(F.FIRST_TIMER, plan))]
  }

  lemma {:induction false} TimerRunsOut(s: TxState, first: u32, plan: ProbePlan)
    requires s == F.SentTx(first, 100, false)
    ensures var t := HandleTimeout(s, F.FIRST_TIMER, plan);
      t.window.phase == C.LossRecovery && |t.resend| == 1
  {}

  lemma {:induction false} SackGetsLost(first: u32, plan: ProbePlan)
    ensures Stuck(RunPair(F.Fresh(first, 100, 100), LoseSack(plan)), 0)
  {
    var p, a := F.TakenPair(first, 100, 100, false), AtSender(TimeoutOp(F.FIRST_TIMER, plan));
    F.FirstTaken(first, 100, 100, false);
    F.OneMore(F.Fresh(first, 100, 100), F.SendFirst(false) + [DeliverData(0)], a);
    TimerRunsOut(p.tx, first, plan);
    AppendNothing(p.hist);
    assert Step(p, a).tx == HandleTimeout(p.tx, F.FIRST_TIMER, plan);
  }
}
