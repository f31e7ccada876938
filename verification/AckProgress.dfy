/** When a SACK that covers more than the last one makes the sender go on. */
module AckProgress {
  import opened Basics
  import opened SerialNumber
  import opened Chunks
  import opened TxModel
  import opened Association
  import opened AssociationSteps
  import opened AssociationSafety
  import F = FirstByte

  /** The last value that is still compared as larger than zero. */
  const WRAP_HI: int := TWO32 - 1 - TSN_RADIUS

  /** The sender's record of the last acknowledged TSN starts at zero, not right before its first TSN; until the first
      SACK has been seen, only values that compare as larger than zero are taken for new ones. */
  predicate Recognized(p: Pair, init: u32, r: SackRecord) {
    p.tx.lastAcked == At(init, Kept(p) - 1) || 0 < r.sack.cumTsn <= WRAP_HI
  }

  lemma {:induction false} LargerThanZero(t: u32)
    ensures TsnCompare(0, t) == Less <==> 0 < t <= WRAP_HI
  {}

  lemma {:induction false} RecognizedIsNew(p: Pair, init: u32, r: SackRecord)
    requires KeepsUnacked(p, init) && r.sack.cumTsn == At(init, r.covers - 1)
    requires 0 < r.covers - Kept(p) <= TSN_RADIUS
    ensures TsnCompare(p.tx.lastAcked, r.sack.cumTsn) == Less <==> Recognized(p, init, r)
  {
    if p.tx.lastAcked == At(init, Kept(p) - 1) {
      CompareAt(init, Kept(p) - 1, r.covers - 1);
    } else {
      LargerThanZero(r.sack.cumTsn);
    }
  }

  /** The chunks still kept after a SACK that covers more than what was forgotten so far: exactly those behind the
      ones it covers, if the sender recognizes it, and otherwise all of them. */
  lemma {:induction false} SackAdvances(p: Pair, init: u32, r: SackRecord, now: nat)
    requires Inv(p, init) && CanHappen(p, DeliverSack(r, now)) && Kept(p) < r.covers
    ensures Kept(p.(tx := HandleSack(p.tx, r.sack, now))) == if Recognized(p, init, r) then r.covers else Kept(p)
  {
    var n := p.(tx := HandleSack(p.tx, r.sack, now));
    assert Honest(p, init, r);
    SackAcknowledges(p, r, now);
    RecognizedIsNew(p, init, r);
    if Recognized(p, init, r) {
      ForgetsCovered(p, init, r);
      NewAckKeeps(p, n, init, r);
    } else {
      OldAckKeeps(p, n, init, r);
    }
  }

  /** In every run: a SACK under way that covers more chunks makes the sender forget exactly the covered ones if and
      only if it is recognized. */
  lemma {:induction false} ProgressExactlyIfRecognized(settings: AssocTxSettings, inStreams: u16, limit: nat, now: nat,
                                                       actions: seq<Action>, r: SackRecord, at: nat)
    requires Compatible(settings, inStreams, limit)
    requires var p := RunPair(NewPair(settings, inStreams, limit, now), actions);
      CanHappen(p, DeliverSack(r, at)) && Kept(p) < r.covers
    ensures var p := RunPair(NewPair(settings, inStreams, limit, now), actions);
      Kept(Do(p, DeliverSack(r, at))) == if Recognized(p, settings.initTsn, r) then r.covers else Kept(p)
  {
    InvAlways(settings, inStreams, limit, now, actions);
    SackAdvances(RunPair(NewPair(settings, inStreams, limit, now), actions), settings.initTsn, r, at);
  }

  // ----- an association that starts just below the wrap -----

  lemma {:induction false} OldSackChangesNothing(s: TxState, sack: SelectiveAck, at: nat)
    requires s.lastAcked == 0 && WRAP_HI < sack.cumTsn
    ensures HandleSack(s, sack, at) == s
  {
    LargerThanZero(sack.cumTsn);
  }

  /** An association whose first TSN is 2^32 - 10: its first byte was sent and received, and the SACK that says so
      changes nothing. */
  lemma {:induction false} FirstSackIgnored(at: nat)
    ensures var p := RunPair(F.Fresh(TWO32 - 10, 100, 100), F.SendFirst(false) + [DeliverData(0)]);
      && p.taken == 1 && Kept(p) == 0
      && exists r :: r in p.sacks && r.covers == 1 && HandleSack(p.tx, r.sack, at) == p.tx
  {
    var p := F.TakenPair(TWO32 - 10, 100, 100, false);
    F.FirstTaken(TWO32 - 10, 100, 100, false);
    var r := SackRecord(F.FirstSack(TWO32 - 10, 100), 1);
    assert r in p.sacks;
    OldSackChangesNothing(p.tx, r.sack, at);
  }
}
