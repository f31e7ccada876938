/** Against a receiver of this implementation, no poll ever panics, whatever messages the application sends. */
module PanicFreedom {
  import opened Basics
  import opened SerialNumber
  import opened Chunks
  import opened TxModel
  import opened TxInvariants
  import opened Association
  import opened AssociationSteps
  import opened AssociationSafety
  import C = Congestion
  import RT = RxTracking

  /** A recovery phase has something to send again. */
  predicate Recovers(s: TxState) { C.InRecovery(s.window) ==> s.resend != [] }

  // ----- what was taken was not empty -----

  lemma {:induction false} HistoryGrows(p: Pair, a: Action)
    ensures p.hist <= Step(p, a).hist
  {}

  lemma {:induction false} DeliveredHasBytes(p: Pair, actions: seq<Action>, i: nat)
    requires i in Delivered(p, actions)
    ensures i < |RunPair(p, actions).hist| && RunPair(p, actions).hist[i].buf != []
  {
    var before, a := actions[..|actions| - 1], actions[|actions| - 1];
    HistoryGrows(RunPair(p, before), a);
    if i in Delivered(p, before) {
      DeliveredHasBytes(p, before, i);
    }
  }

  lemma {:induction false} TakenChunkHasBytes(settings: AssocTxSettings, inStreams: u16, limit: nat, now: nat,
                                              actions: seq<Action>, i: nat)
    requires Compatible(settings, inStreams, limit)
    ensures var p := RunPair(NewPair(settings, inStreams, limit, now), actions);
      i < p.taken ==> i < |p.hist| && p.hist[i].buf != []
  {
    ReceiverIsASet(settings, inStreams, limit, now, actions, i);
    if i in Delivered(NewPair(settings, inStreams, limit, now), actions) {
      DeliveredHasBytes(NewPair(settings, inStreams, limit, now), actions, i);
    }
  }

  /** Nothing that the receiver took in order was empty. */
  lemma {:induction false} TakenHasBytes(p: Pair)
    requires p.taken <= |p.hist| && forall i: nat :: i < p.taken ==> i < |p.hist| && p.hist[i].buf != []
    ensures NonEmpty(p.hist[..p.taken])
  {}

  // ----- recovery phases end in time -----

  /** A SACK that only forgets chunks with payload ends the recovery phase when it empties the queue. */
  lemma {:induction false} SackRecovers(s: TxState, sack: SelectiveAck, now: nat)
    requires Recovers(s)
    requires TsnCompare(s.lastAcked, sack.cumTsn) == Less ==>
      NonEmpty(DataOf(s.resend)[..AckedCount(s.resend, sack.cumTsn)])
    ensures Recovers(HandleSack(s, sack, now))
  {
    match TsnCompare(s.lastAcked, sack.cumTsn)
    case Greater =>
    case Equal =>
      GapWalkKeepsData(s.resend, sack.blocks, sack.cumTsn);
      assert |DataOf(s.resend)| == |s.resend|;
    case Less =>
      var k := AckedCount(s.resend, sack.cumTsn);
      DataOfSplit(s.resend, k);
      GapWalkKeepsData(s.resend[k..], sack.blocks, sack.cumTsn);
      if k > 0 {
        PositiveBytes(DataOf(s.resend)[..k]);
      } else {
        assert s.resend[0..] == s.resend && |DataOf(s.resend)| == |s.resend|;
      }
  }

  lemma {:induction false} OperationRecovers(s: TxState, op: TxOp)
    requires Recovers(s) && Clean(op) && !IsSack(op)
    ensures Recovers(Apply(s, op))
  {
    match op
    case TrySendOp(_, _, _, _, _) =>
    case PollDataOp(_, _, _) =>
    case PollSignalOp(_, _, _) =>
    case TimeoutOp(_, _) =>
    case NotifyOp(_, _) =>
    case InitiateShutdownOp =>
  }

  lemma {:induction false} SliceNonEmpty(hist: seq<DataChunk>, n: nat, f: nat, k: nat)
    requires n <= |hist| && NonEmpty(hist[..n]) && f + k <= n
    ensures NonEmpty(hist[f..][..k])
  {}

  /** A SACK of the receiver only makes the sender forget chunks that were taken. */
  lemma {:induction false} ForgetsTaken(p: Pair, init: u32, r: SackRecord)
    requires RT.History(p.hist, init) && KeepsUnacked(p, init) && p.taken <= |p.hist| && Honest(p, init, r)
    requires -TSN_RADIUS <= r.covers - Kept(p) <= TSN_RADIUS && NonEmpty(p.hist[..p.taken])
    ensures TsnCompare(p.tx.lastAcked, r.sack.cumTsn) == Less ==>
      NonEmpty(DataOf(p.tx.resend)[..AckedCount(p.tx.resend, r.sack.cumTsn)])
  {
    if TsnCompare(p.tx.lastAcked, r.sack.cumTsn) == Less {
      SackOrder(p, init, r);
      ForgetsCovered(p, init, r);
      SliceNonEmpty(p.hist, p.taken, Kept(p), r.covers - Kept(p));
    }
  }

  lemma {:induction false} RecoversStep(p: Pair, init: u32, a: Action)
    requires Inv(p, init) && Recovers(p.tx) && CanHappen(p, a)
    requires forall i: nat :: i < p.taken ==> i < |p.hist| && p.hist[i].buf != []
    ensures Recovers(Do(p, a).tx)
  {
    TakenHasBytes(p);
    if a.AtSender? {
      OperationRecovers(p.tx, a.op);
    } else if a.DeliverSack? {
      ForgetsTaken(p, init, a.record);
      SackRecovers(p.tx, a.record.sack, a.now);
    }
  }

  /** The recovery panic is unreachable: in every run of a sender and a receiver, with empty messages or without,
      a recovery phase implies a non-empty resend queue, so no poll for data panics. An empty chunk has no wire
      form, so it is never taken, never acknowledged, and never leaves the queue. */
  lemma {:induction false} NoPollPanics(settings: AssocTxSettings, inStreams: u16, limit: nat, now: nat,
                                        actions: seq<Action>,
                                        room: nat, packed: nat, at: nat)
    requires Compatible(settings, inStreams, limit)
    ensures var p := RunPair(NewPair(settings, inStreams, limit, now), actions);
      Recovers(p.tx) && PollData(p.tx, room, packed, at).1 != Panicked
  {
    if actions == [] {
    } else {
      var before, a := actions[..|actions| - 1], actions[|actions| - 1];
      NoPollPanics(settings, inStreams, limit, now, before, room, packed, at);
      InvAlways(settings, inStreams, limit, now, before);
      var p := RunPair(NewPair(settings, inStreams, limit, now), before);
      forall i: nat ensures i < p.taken ==> i < |p.hist| && p.hist[i].buf != [] {
        TakenChunkHasBytes(settings, inStreams, limit, now, before, i);
      }
      if CanHappen(p, a) {
        RecoversStep(p, settings.initTsn, a);
      }
    }
  }
}
