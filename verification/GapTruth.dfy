/** Over whole runs, the sender never takes a chunk for received that the receiver does not have. */
module GapTruth {
  import opened Basics
  import opened SerialNumber
  import opened Chunks
  import opened TxModel
  import opened TxInvariants
  import opened SackEncoding
  import opened Association
  import opened AssociationSteps
  import opened AssociationSafety
  import RxModel
  import RT = RxTracking

  /** The receiver has accepted chunk `i`. */
  ghost predicate Has(p: Pair, init: u32, i: int) { RT.IsAccepted(p.rx, init, p.taken, i) }

  /** Chunks arrive less than 65535 ahead of the next one, and a SACK that arrives is close enough to everything in
      flight for its blocks to be compared. */
  predicate Near(p: Pair, a: Action) {
    match a
    case DeliverData(i) => i - p.taken < TWO16 - 1
    case DeliverSack(r, _) => r.covers - Kept(p) <= TSN_RADIUS - TWO16 && |p.hist| - r.covers <= TSN_RADIUS - TWO16
    case _ => true
  }

  ghost predicate NearRun(p: Pair, actions: seq<Action>) {
    actions == [] ||
    (NearRun(p, actions[..|actions| - 1]) && Near(RunPair(p, actions[..|actions| - 1]), actions[|actions| - 1]))
  }

  // ----- what is claimed, and what is true -----

  /** Everything that the blocks of a SACK say, as the sender reads them, is true. */
  ghost predicate TruthfulSack(p: Pair, init: u32, r: SackRecord) {
    forall o :: CoversHalfOpen(r.sack.blocks, o) ==> Has(p, init, r.covers - 1 + o)
  }

  /** Every chunk that the sender has marked as received behind a gap has been received. */
  ghost predicate TruthfulQueue(p: Pair, init: u32) {
    forall k :: 0 <= k < |p.tx.resend| && p.tx.resend[k].partiallyAcked ==> Has(p, init, Kept(p) + k)
  }

  /** Nothing accepted lies further ahead than a gap block can say. */
  ghost predicate NearBuffer(p: Pair, init: u32) {
    forall i :: Has(p, init, i) ==> i - p.taken < TWO16 - 1
  }

  ghost predicate Truthful(p: Pair, init: u32) {
    && NearBuffer(p, init) && TruthfulQueue(p, init)
    && forall r :: r in p.sacks ==> TruthfulSack(p, init, r)
  }

  // ----- the receiver writes the truth -----

  lemma {:induction false} BufferedIsAccepted(r: RxModel.RxState, hist: seq<DataChunk>, init: u32, n: nat, k: nat)
    requires RT.Tracks(r, hist, init, n, 1) && k < |r.reorder|
    ensures var o := Offset(At(init, n), r.reorder[k].tsn);
      && RT.IsAccepted(r, init, n, n + o)
      && Offset(r.tsnCounter, r.reorder[k].tsn) == o + 1 && o >= 1 && At(init, n + o) == r.reorder[k].tsn
  {
    var o := Offset(At(init, n), r.reorder[k].tsn);
    assert r.reorder[k] in r.reorder;
    assert RT.FromHistory(hist, init, n, 1, r.reorder[k]);
    assert At(init, n + o) == r.reorder[k].tsn;
  }

  lemma {:induction false} BufferIsSorted(p: Pair, init: u32)
    requires RT.Tracks(p.rx, p.hist, init, p.taken, 1) && NearBuffer(p, init)
    ensures SortedFrom(p.rx.tsnCounter, p.rx.reorder) && Short(p.rx.tsnCounter, p.rx.reorder)
  {
    var r := p.rx;
    forall k | 0 <= k < |r.reorder|
      ensures 1 <= Offset(r.tsnCounter, r.reorder[k].tsn) < TWO16
      ensures Offset(r.tsnCounter, r.reorder[k].tsn) == Offset(At(init, p.taken), r.reorder[k].tsn) + 1
    {
      BufferedIsAccepted(r, p.hist, init, p.taken, k);
      assert Has(p, init, p.taken + Offset(At(init, p.taken), r.reorder[k].tsn));
    }
  }

  lemma {:induction false} BufferedIsHad(p: Pair, init: u32, o: int)
    requires RT.Tracks(p.rx, p.hist, init, p.taken, 1) && Holds(p.rx.tsnCounter, p.rx.reorder, o)
    ensures Has(p, init, p.taken - 1 + o)
  {
    var k :| 0 <= k < |p.rx.reorder| && Offset(p.rx.tsnCounter, p.rx.reorder[k].tsn) == o;
    BufferedIsAccepted(p.rx, p.hist, init, p.taken, k);
  }

  lemma {:induction false} NewSackIsTruthful(p: Pair, init: u32)
    requires RT.Tracks(p.rx, p.hist, init, p.taken, 1) && NearBuffer(p, init)
    ensures TruthfulSack(p, init, SackRecord(RxModel.MakeSack(p.rx), p.taken))
  {
    BufferIsSorted(p, init);
    forall o | CoversHalfOpen(RxModel.GapBlocks(p.rx.tsnCounter, p.rx.reorder), o)
      ensures Has(p, init, p.taken - 1 + o) {
      HalfOpenReading(p.rx.tsnCounter, p.rx.reorder, o);
      BufferedIsHad(p, init, o);
    }
  }

  // ----- the sender reads the truth -----

  /** The TSN lies inside the block, as the sender compares. */
  predicate Inside(tsn: u32, cumTsn: u32, block: (u16, u16)) {
    TsnCompare(tsn, BlockTsns(cumTsn, block).0) != Less && TsnCompare(tsn, BlockTsns(cumTsn, block).1) == Less
  }

  /** The walk only marks an entry that some block covers. */
  lemma {:induction false} WalkMarksCovered(q: seq<ResendEntry>, blocks: seq<(u16, u16)>, cumTsn: u32, j: nat)
    requires j < |q|
    ensures var marked := GapWalk(q, blocks, cumTsn).0;
      && |marked| == |q|
      && (marked[j].partiallyAcked ==>
            q[j].partiallyAcked || exists k :: 0 <= k < |blocks| && Inside(q[j].data.tsn, cumTsn, blocks[k]))
    decreases |q| + |blocks|
  {
    if blocks == [] {
    } else {
      var e := q[0];
      var (lo, hi) := BlockTsns(cumTsn, blocks[0]);
      if !e.partiallyAcked && TsnCompare(e.data.tsn, lo) != Less && TsnCompare(e.data.tsn, hi) != Less {
        WalkMarksCovered(q, blocks[1..], cumTsn, j);
        assert forall k :: 0 <= k < |blocks[1..]| ==> blocks[1..][k] == blocks[k + 1];
      } else if j > 0 {
        WalkMarksCovered(q[1..], blocks, cumTsn, j - 1);
      } else if |q| > 1 {
        WalkMarksCovered(q[1..], blocks, cumTsn, 0);
      }
    }
  }

  /** An entry that a block covers on the circle is covered in the unbounded numbering. */
  lemma {:induction false} CoveredIndex(init: u32, covers: nat, i: nat, block: (u16, u16))
    requires TSN_RADIUS - TWO16 >= i - covers && covers - i <= TSN_RADIUS - TWO16
    requires Inside(At(init, i), At(init, covers - 1), block)
    ensures block.0 <= i - (covers - 1) < block.1
  {
    BlockAt(init, covers, block.0);
    BlockAt(init, covers, block.1);
    CompareAt(init, i, covers - 1 + block.0);
    CompareAt(init, i, covers - 1 + block.1);
  }

  lemma {:induction false} BlockAt(init: u32, covers: nat, b: u16)
    ensures (At(init, covers - 1) + b) % TWO32 == At(init, covers - 1 + b)
  {}

  /** A marked entry of the queue that is left after a SACK is one that the receiver has. */
  lemma {:induction false} MarksAreTrue(p: Pair, init: u32, r: SackRecord, q: seq<ResendEntry>, f: nat, j: nat)
    requires TruthfulSack(p, init, r) && r.sack.cumTsn == At(init, r.covers - 1)
    requires j < |q| && q[j].data.tsn == At(init, f + j) && (q[j].partiallyAcked ==> Has(p, init, f + j))
    requires r.covers - f <= TSN_RADIUS - TWO16 && f + |q| - r.covers <= TSN_RADIUS - TWO16
    ensures var marked := GapWalk(q, r.sack.blocks, r.sack.cumTsn).0;
      |marked| == |q| && (marked[j].partiallyAcked ==> Has(p, init, f + j))
  {
    WalkMarksCovered(q, r.sack.blocks, r.sack.cumTsn, j);
    if k :| 0 <= k < |r.sack.blocks| && Inside(q[j].data.tsn, r.sack.cumTsn, r.sack.blocks[k]) {
      CoveredIndex(init, r.covers, f + j, r.sack.blocks[k]);
      assert CoversHalfOpen(r.sack.blocks, f + j - (r.covers - 1));
    }
  }

  // ----- every step -----

  /** What a sender operation without a SACK does to the marks. */
  ghost predicate KeepsMarks(before: seq<ResendEntry>, after: seq<ResendEntry>) {
    && |before| <= |after|
    && forall k :: 0 <= k < |after| && after[k].partiallyAcked ==> k < |before| && before[k].partiallyAcked
  }

  lemma {:induction false} TimeoutKeepsMarks(s: TxState, timeout: Timer, plan: ProbePlan)
    ensures KeepsMarks(s.resend, HandleTimeout(s, timeout, plan).resend)
  {}

  lemma {:induction false} PollKeepsMarks(s: TxState, limit: nat, packed: nat, now: nat)
    ensures KeepsMarks(s.resend, PollData(s, limit, packed, now).0.resend)
  {}

  lemma {:induction false} OperationKeepsMarks(s: TxState, op: TxOp)
    requires Clean(op) && !IsSack(op)
    ensures KeepsMarks(s.resend, Apply(s, op).resend)
  {
    if op.TimeoutOp? {
      TimeoutKeepsMarks(s, op.timeout, op.plan);
    } else if op.PollDataOp? {
      PollKeepsMarks(s, op.limit, op.packed, op.now);
    } else {
      assert Apply(s, op).resend == s.resend;
    }
  }

  lemma {:induction false} SendKeepsFront(p: Pair, init: u32, n: Pair, m: Move)
    requires KeepsUnacked(p, init) && Sends(p, n, m)
    ensures Kept(n) == Kept(p) && n.rx == p.rx && n.taken == p.taken && n.sacks == p.sacks
  {
    SentQueue(p, n, m);
    GrownTail(p, n, SentBy(CoreOf(p.tx), m));
  }

  lemma {:induction false} SameMarksKeepQueue(p: Pair, init: u32, n: Pair)
    requires TruthfulQueue(p, init) && KeepsMarks(p.tx.resend, n.tx.resend)
    requires Kept(n) == Kept(p) && n.rx == p.rx && n.taken == p.taken
    ensures TruthfulQueue(n, init)
  {}

  /** Entries from the `f`-th chunk of the history on, whose marks are true. */
  ghost predicate TrueFrom(p: Pair, init: u32, f: nat, q: seq<ResendEntry>) {
    forall j :: 0 <= j < |q| ==> q[j].data.tsn == At(init, f + j) && (q[j].partiallyAcked ==> Has(p, init, f + j))
  }

  lemma {:induction false} QueueIsTrueFrom(p: Pair, init: u32, k: nat)
    requires NothingLost(p, init) && TruthfulQueue(p, init) && k <= |p.tx.resend|
    ensures TrueFrom(p, init, Kept(p) + k, p.tx.resend[k..])
  {
    var q := p.tx.resend[k..];
    forall j | 0 <= j < |q|
      ensures q[j].data.tsn == At(init, Kept(p) + k + j) && (q[j].partiallyAcked ==> Has(p, init, Kept(p) + k + j))
    {
      var i := Kept(p) + k + j;
      assert q[j] == p.tx.resend[i - Kept(p)];
    }
  }

  /** Walking over entries whose marks are true with a truthful SACK leaves true marks. */
  lemma {:induction false} WalkKeepsTrue(p: Pair, init: u32, r: SackRecord, f: nat, q: seq<ResendEntry>)
    requires TrueFrom(p, init, f, q) && TruthfulSack(p, init, r) && r.sack.cumTsn == At(init, r.covers - 1)
    requires r.covers - f <= TSN_RADIUS - TWO16 && f + |q| - r.covers <= TSN_RADIUS - TWO16
    ensures var marked := GapWalk(q, r.sack.blocks, r.sack.cumTsn).0;
      |marked| == |q| && forall j :: 0 <= j < |q| && marked[j].partiallyAcked ==> Has(p, init, f + j)
  {
    GapWalkKeepsData(q, r.sack.blocks, r.sack.cumTsn);
    var marked := GapWalk(q, r.sack.blocks, r.sack.cumTsn).0;
    assert |marked| == |DataOf(marked)| == |DataOf(q)| == |q|;
    forall j | 0 <= j < |q| && marked[j].partiallyAcked ensures Has(p, init, f + j) {
      MarksAreTrue(p, init, r, q, f, j);
    }
  }

  /** The queue that a SACK leaves. */
  ghost predicate Marked(s: TxState, sack: SelectiveAck, t: TxState) {
    match TsnCompare(s.lastAcked, sack.cumTsn)
    case Greater => t.resend == s.resend
    case Equal => t.resend == GapWalk(s.resend, sack.blocks, sack.cumTsn).0
    case Less => t.resend == GapWalk(s.resend[AckedCount(s.resend, sack.cumTsn)..], sack.blocks, sack.cumTsn).0
  }

  lemma {:induction false} SackMarks(s: TxState, sack: SelectiveAck, now: nat)
    ensures Marked(s, sack, HandleSack(s, sack, now))
  {}

  lemma {:induction false} MarksBecomeQueue(p: Pair, init: u32, r: SackRecord, f: nat, q: seq<ResendEntry>, tx: TxState)
    requires TrueFrom(p, init, f, q) && TruthfulSack(p, init, r) && r.sack.cumTsn == At(init, r.covers - 1)
    requires r.covers - f <= TSN_RADIUS - TWO16 && f + |q| - r.covers <= TSN_RADIUS - TWO16
    requires f + |q| == |p.hist| && tx.resend == GapWalk(q, r.sack.blocks, r.sack.cumTsn).0
    ensures TruthfulQueue(p.(tx := tx), init)
  {
    WalkKeepsTrue(p, init, r, f, q);
  }

  lemma {:induction false} SackCovers(p: Pair, init: u32, r: SackRecord)
    requires RT.History(p.hist, init) && KeepsUnacked(p, init) && p.taken <= |p.hist| && Honest(p, init, r)
    requires -TSN_RADIUS <= r.covers - Kept(p) <= TSN_RADIUS && TsnCompare(p.tx.lastAcked, r.sack.cumTsn) == Less
    ensures Kept(p) <= r.covers <= |p.hist| && AckedCount(p.tx.resend, r.sack.cumTsn) == r.covers - Kept(p)
  {
    SackOrder(p, init, r);
    ForgetsCovered(p, init, r);
  }

  lemma {:induction false} DuplicateKeepsQueue(p: Pair, init: u32, r: SackRecord, tx: TxState)
    requires NothingLost(p, init) && TruthfulQueue(p, init) && TruthfulSack(p, init, r)
    requires r.sack.cumTsn == At(init, r.covers - 1) && Near(p, DeliverSack(r, 0))
    requires tx.resend == GapWalk(p.tx.resend, r.sack.blocks, r.sack.cumTsn).0
    ensures TruthfulQueue(p.(tx := tx), init)
  {
    var q := p.tx.resend[0..];
    QueueIsTrueFrom(p, init, 0);
    assert q == p.tx.resend;
    MarksBecomeQueue(p, init, r, Kept(p), q, tx);
  }

  lemma {:induction false} TailIsTrueFrom(p: Pair, init: u32, f: nat, q: seq<ResendEntry>)
    requires NothingLost(p, init) && TruthfulQueue(p, init) && Kept(p) <= f <= |p.hist|
    requires q == p.tx.resend[f - Kept(p)..]
    ensures TrueFrom(p, init, f, q) && f + |q| == |p.hist|
  {
    QueueIsTrueFrom(p, init, f - Kept(p));
  }

  lemma {:induction false} AdvanceKeepsQueue(p: Pair, init: u32, r: SackRecord, q: seq<ResendEntry>, tx: TxState)
    requires NothingLost(p, init) && TruthfulQueue(p, init) && TruthfulSack(p, init, r)
    requires r.sack.cumTsn == At(init, r.covers - 1) && Near(p, DeliverSack(r, 0)) && Kept(p) <= r.covers <= |p.hist|
    requires q == p.tx.resend[r.covers - Kept(p)..] && tx.resend == GapWalk(q, r.sack.blocks, r.sack.cumTsn).0
    ensures TruthfulQueue(p.(tx := tx), init)
  {
    TailIsTrueFrom(p, init, r.covers, q);
    MarksBecomeQueue(p, init, r, r.covers, q, tx);
  }

  lemma {:induction false} MarkedKeepsQueue(p: Pair, init: u32, r: SackRecord, tx: TxState)
    requires NothingLost(p, init) && TruthfulQueue(p, init) && TruthfulSack(p, init, r)
    requires r.sack.cumTsn == At(init, r.covers - 1) && Near(p, DeliverSack(r, 0)) && Marked(p.tx, r.sack, tx)
    requires TsnCompare(p.tx.lastAcked, r.sack.cumTsn) == Less ==>
      Kept(p) <= r.covers <= |p.hist| && AckedCount(p.tx.resend, r.sack.cumTsn) == r.covers - Kept(p)
    ensures TruthfulQueue(p.(tx := tx), init)
  {
    match TsnCompare(p.tx.lastAcked, r.sack.cumTsn)
    case Greater =>
    case Equal => DuplicateKeepsQueue(p, init, r, tx);
    case Less => AdvanceKeepsQueue(p, init, r, p.tx.resend[r.covers - Kept(p)..], tx);
  }

  lemma {:induction false} SackKeepsQueue(p: Pair, init: u32, r: SackRecord, now: nat)
    requires Inv(p, init) && Truthful(p, init) && CanHappen(p, DeliverSack(r, now)) && Near(p, DeliverSack(r, now))
    ensures TruthfulQueue(p.(tx := HandleSack(p.tx, r.sack, now)), init)
  {
    KeepsOriginals(p, init);
    assert Honest(p, init, r);
    SackMarks(p.tx, r.sack, now);
    if TsnCompare(p.tx.lastAcked, r.sack.cumTsn) == Less {
      SackCovers(p, init, r);
    }
    MarkedKeepsQueue(p, init, r, HandleSack(p.tx, r.sack, now));
  }

  // ----- whole runs -----

  /** The receiver is as it was, or has accepted more, and every new SACK is truthful. */
  lemma {:induction false} StaysTruthful(p: Pair, n: Pair, init: u32)
    requires Truthful(p, init) && TruthfulQueue(n, init) && NearBuffer(n, init)
    requires forall i :: Has(p, init, i) ==> Has(n, init, i)
    requires forall r :: r in n.sacks ==> r in p.sacks || TruthfulSack(n, init, r)
    ensures Truthful(n, init)
  {}

  lemma {:induction false} ArrivalStaysNear(p: Pair, n: Pair, init: u32, j: nat)
    requires NearBuffer(p, init) && p.taken <= n.taken && j - p.taken < TWO16 - 1
    requires forall i: nat :: Has(n, init, i) <==> Has(p, init, i) || i == j
    ensures NearBuffer(n, init) && forall i :: Has(p, init, i) ==> Has(n, init, i)
  {
    forall i ensures (Has(n, init, i) ==> i - n.taken < TWO16 - 1) && (Has(p, init, i) ==> Has(n, init, i)) {
      if i >= 0 {
        assert Has(n, init, i) <==> Has(p, init, i) || i == j;
      }
    }
  }

  lemma {:induction false} MoreIsAccepted(p: Pair, n: Pair, init: u32)
    requires TruthfulQueue(p, init) && n.tx == p.tx && n.hist == p.hist
    requires forall i :: Has(p, init, i) ==> Has(n, init, i)
    ensures TruthfulQueue(n, init)
  {}

  /** An arrival keeps every claim true. */
  lemma {:induction false} ReceiveTruthful(p: Pair, n: Pair, init: u32, j: nat)
    requires Truthful(p, init) && p.taken <= |p.hist| && Receives(p, n, init) && j - p.taken < TWO16 - 1
    requires forall i: nat :: Has(n, init, i) <==> Has(p, init, i) || i == j
    ensures Truthful(n, init)
  {
    ArrivalStaysNear(p, n, init, j);
    MoreIsAccepted(p, n, init);
    NewSackIsTruthful(n, init);
    StaysTruthful(p, n, init);
  }

  lemma {:induction false} ArrivalTruthful(p: Pair, init: u32, j: nat)
    requires Inv(p, init) && Truthful(p, init) && CanHappen(p, DeliverData(j)) && Near(p, DeliverData(j))
    ensures Truthful(Do(p, DeliverData(j)), init)
  {
    DataReceives(p, init, j);
    var n := Do(p, DeliverData(j));
    forall i: nat ensures Has(n, init, i) <==> Has(p, init, i) || i == j {
      AcceptedStep(p, init, DeliverData(j), i);
    }
    ReceiveTruthful(p, n, init, j);
  }

  /** The reorder buffer and the SACKs are the same, so only the sender's marks matter. */
  lemma {:induction false} SameClaims(p: Pair, n: Pair, init: u32)
    requires Truthful(p, init) && TruthfulQueue(n, init)
    requires n.rx.reorder == p.rx.reorder && n.taken == p.taken && n.sacks == p.sacks
    ensures Truthful(n, init)
  {
    assert forall i :: Has(n, init, i) <==> Has(p, init, i);
    StaysTruthful(p, n, init);
  }

  lemma {:induction false} SenderTruthful(p: Pair, init: u32, op: TxOp)
    requires Inv(p, init) && Truthful(p, init) && CanHappen(p, AtSender(op))
    ensures Truthful(Do(p, AtSender(op)), init)
  {
    var n := Do(p, AtSender(op));
    SenderSends(p, op);
    OperationKeepsMarks(p.tx, op);
    SendKeepsFront(p, init, n, MoveOf(p.tx, op));
    SameMarksKeepQueue(p, init, n);
    SameClaims(p, n, init);
  }

  lemma {:induction false} SackTruthful(p: Pair, init: u32, r: SackRecord, now: nat)
    requires Inv(p, init) && Truthful(p, init) && CanHappen(p, DeliverSack(r, now)) && Near(p, DeliverSack(r, now))
    ensures Truthful(p.(tx := HandleSack(p.tx, r.sack, now)), init)
  {
    SackKeepsQueue(p, init, r, now);
    SameClaims(p, p.(tx := HandleSack(p.tx, r.sack, now)), init);
  }

  lemma {:induction false} ReceiverTruthful(p: Pair, n: Pair, init: u32)
    requires Truthful(p, init) && n == p.(rx := n.rx, ordered := n.ordered, unordered := n.unordered)
    requires n.rx.reorder == p.rx.reorder
    ensures Truthful(n, init)
  {
    assert forall i :: Has(n, init, i) <==> Has(p, init, i);
    SameClaims(p, n, init);
  }

  lemma {:induction false} TruthfulStep(p: Pair, init: u32, a: Action)
    requires Inv(p, init) && Truthful(p, init) && CanHappen(p, a) && Near(p, a)
    ensures Truthful(Do(p, a), init)
  {
    match a
    case AtSender(op) => SenderTruthful(p, init, op);
    case DeliverData(j) => ArrivalTruthful(p, init, j);
    case DeliverSack(r, now) => SackTruthful(p, init, r, now);
    case DeliverControl(c, now) =>
      ControlFrame(p.rx, c, now);
      ReceiverTruthful(p, p.(rx := RxModel.HandleControl(p.rx, c, now)), init);
    case PollMessage => ReceiverTruthful(p, Do(p, a), init);
    case TakeNotes => ReceiverTruthful(p, p.(rx := p.rx.(notes := [])), init);
  }

  /** In every run in which nothing is too far apart for gap blocks, each chunk that the sender has marked as received
      behind a gap is one that the receiver has accepted, and what any SACK still under way says is true. */
  lemma {:induction false} GapAcksAreTrue(settings: AssocTxSettings, inStreams: u16, limit: nat, now: nat,
                                          actions: seq<Action>)
    requires Compatible(settings, inStreams, limit) && NearRun(NewPair(settings, inStreams, limit, now), actions)
    ensures Truthful(RunPair(NewPair(settings, inStreams, limit, now), actions), settings.initTsn)
  {
    if actions == [] {
    } else {
      var before, a := actions[..|actions| - 1], actions[|actions| - 1];
      GapAcksAreTrue(settings, inStreams, limit, now, before);
      InvAlways(settings, inStreams, limit, now, before);
      var p := RunPair(NewPair(settings, inStreams, limit, now), before);
      if CanHappen(p, a) {
        TruthfulStep(p, settings.initTsn, a);
      }
    }
  }
}
