/** What the walk over gap blocks does to the resend queue, entry by entry. */
module GapAcks {
  import opened Basics
  import opened SerialNumber
  import opened Chunks
  import opened TxModel
  import opened TxInvariants
  import opened SackEncoding
  import RxModel

  /** The entries lie ahead of the cumulative TSN, in order, and within the comparison window. */
  ghost predicate Ahead(q: seq<ResendEntry>, cumTsn: u32) {
    && (forall i :: 0 <= i < |q| ==> 1 <= Offset(cumTsn, q[i].data.tsn) <= TSN_RADIUS)
    && (forall i, j :: 0 <= i < j < |q| ==> Offset(cumTsn, q[i].data.tsn) < Offset(cumTsn, q[j].data.tsn))
  }

  /** Half-open blocks, ascending and disjoint. */
  ghost predicate InOrder(blocks: seq<(u16, u16)>) {
    && (forall k :: 0 <= k < |blocks| ==> blocks[k].0 <= blocks[k].1)
    && (forall j, k :: 0 <= j < k < |blocks| ==> blocks[j].1 <= blocks[k].0)
  }

  /** Some block starts after this distance. */
  ghost predicate BeforeSome(blocks: seq<(u16, u16)>, o: int) {
    exists k :: 0 <= k < |blocks| && o < blocks[k].0
  }

  /** The meaning of the blocks for one entry. */
  ghost function Judge(e: ResendEntry, blocks: seq<(u16, u16)>, cumTsn: u32): ResendEntry {
    var o := Offset(cumTsn, e.data.tsn);
    if e.partiallyAcked then e
    else if CoversHalfOpen(blocks, o) then e.(partiallyAcked := true)
    else if BeforeSome(blocks, o) then e.(markedForFastRetransmit := true)
    else e
  }

  lemma {:induction false} CompareWithBlock(cumTsn: u32, t: u32, b: u16)
    requires Offset(cumTsn, t) <= TSN_RADIUS
    ensures TsnCompare(t, (cumTsn + b) % TWO32) == Compare(Offset(cumTsn, t), b)
  {}

  /** A block that ends at or before `o` says nothing about it. */
  lemma {:induction false} PastBlock(blocks: seq<(u16, u16)>, o: int)
    requires InOrder(blocks) && blocks != [] && blocks[0].1 <= o
    ensures CoversHalfOpen(blocks, o) <==> CoversHalfOpen(blocks[1..], o)
    ensures BeforeSome(blocks, o) <==> BeforeSome(blocks[1..], o)
  {}

  /** The first block decides everything below its end. */
  lemma {:induction false} FirstBlockDecides(blocks: seq<(u16, u16)>, o: int)
    requires InOrder(blocks) && blocks != []
    ensures o < blocks[0].0 ==> BeforeSome(blocks, o) && !CoversHalfOpen(blocks, o)
    ensures blocks[0].0 <= o < blocks[0].1 ==> CoversHalfOpen(blocks, o)
  {}

  /** What the walk does to an entry that does not take it to the next block. */
  function FirstVerdict(e: ResendEntry, lo: u32): ResendEntry {
    if e.partiallyAcked then e
    else if TsnCompare(e.data.tsn, lo) == Less then e.(markedForFastRetransmit := true)
    else e.(partiallyAcked := true)
  }

  lemma {:induction false} WalkOnce(q: seq<ResendEntry>, blocks: seq<(u16, u16)>, cumTsn: u32)
    requires q != [] && blocks != []
    requires var (lo, hi) := BlockTsns(cumTsn, blocks[0]);
      q[0].partiallyAcked || TsnCompare(q[0].data.tsn, lo) == Less || TsnCompare(q[0].data.tsn, hi) == Less
    ensures GapWalk(q, blocks, cumTsn).0
         == [FirstVerdict(q[0], BlockTsns(cumTsn, blocks[0]).0)] + GapWalk(q[1..], blocks, cumTsn).0
  {}

  /** An entry that was acknowledged before, or lies below the end of the first block, is settled. */
  lemma {:induction false} WalkSettlesEntry(q: seq<ResendEntry>, blocks: seq<(u16, u16)>, cumTsn: u32)
    requires Ahead(q, cumTsn) && InOrder(blocks) && q != [] && blocks != []
    requires q[0].partiallyAcked || Offset(cumTsn, q[0].data.tsn) as int < blocks[0].1
    ensures GapWalk(q, blocks, cumTsn).0 == [Judge(q[0], blocks, cumTsn)] + GapWalk(q[1..], blocks, cumTsn).0
  {
    var e := q[0];
    if !e.partiallyAcked {
      CompareWithBlock(cumTsn, e.data.tsn, blocks[0].0);
      CompareWithBlock(cumTsn, e.data.tsn, blocks[0].1);
      FirstBlockDecides(blocks, Offset(cumTsn, e.data.tsn));
    }
    assert FirstVerdict(e, BlockTsns(cumTsn, blocks[0]).0) == Judge(e, blocks, cumTsn);
    WalkOnce(q, blocks, cumTsn);
  }

  /** Any other entry settles the block. */
  lemma {:induction false} WalkSettlesBlock(q: seq<ResendEntry>, blocks: seq<(u16, u16)>, cumTsn: u32)
    requires Ahead(q, cumTsn) && InOrder(blocks) && q != [] && blocks != []
    requires !q[0].partiallyAcked && Offset(cumTsn, q[0].data.tsn) as int >= blocks[0].1
    ensures GapWalk(q, blocks, cumTsn).0 == GapWalk(q, blocks[1..], cumTsn).0
  {
    CompareWithBlock(cumTsn, q[0].data.tsn, blocks[0].0);
    CompareWithBlock(cumTsn, q[0].data.tsn, blocks[0].1);
  }

  ghost function Verdicts(q: seq<ResendEntry>, blocks: seq<(u16, u16)>, cumTsn: u32): seq<ResendEntry> {
    seq(|q|, i requires 0 <= i < |q| => Judge(q[i], blocks, cumTsn))
  }

  /** For ascending disjoint blocks the merge walk gives every entry exactly its own verdict. */
  lemma {:induction false} WalkIsPointwise(q: seq<ResendEntry>, blocks: seq<(u16, u16)>, cumTsn: u32)
    requires Ahead(q, cumTsn) && InOrder(blocks)
    ensures GapWalk(q, blocks, cumTsn).0 == Verdicts(q, blocks, cumTsn)
    decreases |q| + |blocks|
  {
    if q == [] {
    } else if blocks == [] {
      assert forall i :: 0 <= i < |q| ==> Judge(q[i], blocks, cumTsn) == q[i];
    } else {
      if q[0].partiallyAcked || Offset(cumTsn, q[0].data.tsn) as int < blocks[0].1 {
        WalkSettlesEntry(q, blocks, cumTsn);
        WalkIsPointwise(q[1..], blocks, cumTsn);
        assert Verdicts(q, blocks, cumTsn) == [Judge(q[0], blocks, cumTsn)] + Verdicts(q[1..], blocks, cumTsn);
      } else {
        WalkSettlesBlock(q, blocks, cumTsn);
        WalkIsPointwise(q, blocks[1..], cumTsn);
        forall i | 0 <= i < |q| ensures Judge(q[i], blocks, cumTsn) == Judge(q[i], blocks[1..], cumTsn) {
          PastBlock(blocks, Offset(cumTsn, q[i].data.tsn));
        }
      }
    }
  }

  /** From a SACK that a receiver builds, the sender takes a chunk for received exactly if the receiver
      holds that chunk and the one after it; in particular never a chunk that the receiver does not hold. */
  lemma {:induction false} GapAckedMeansHeld(r: RxModel.RxState, q: seq<ResendEntry>, i: nat)
    requires SortedFrom(r.tsnCounter, r.reorder) && Short(r.tsnCounter, r.reorder)
    requires Ahead(q, r.tsnCounter) && i < |q| && !q[i].partiallyAcked
    ensures var sack := RxModel.MakeSack(r);
      var o := Offset(r.tsnCounter, q[i].data.tsn);
      var marked := GapWalk(q, sack.blocks, sack.cumTsn).0;
      && |marked| == |q|
      && (marked[i].partiallyAcked <==> Holds(r.tsnCounter, r.reorder, o) && Holds(r.tsnCounter, r.reorder, o + 1))
  {
    var sack := RxModel.MakeSack(r);
    BlocksAreExact(r.tsnCounter, r.reorder);
    WalkIsPointwise(q, sack.blocks, sack.cumTsn);
    HalfOpenReading(r.tsnCounter, r.reorder, Offset(r.tsnCounter, q[i].data.tsn));
  }

  // ----- credit -----

  /** Bytes of the entries that have not been credited yet. */
  function Uncredited(q: seq<ResendEntry>): nat {
    if q == [] then 0
    else (if q[0].partiallyAcked then 0 else |q[0].data.buf|) + Uncredited(q[1..])
  }

  /** The walk credits exactly the bytes of the entries it marks, whatever the blocks look like. */
  lemma {:induction false} WalkCreditsOnce(q: seq<ResendEntry>, blocks: seq<(u16, u16)>, cumTsn: u32)
    ensures var (marked, credit) := GapWalk(q, blocks, cumTsn);
      Uncredited(marked) + credit == Uncredited(q)
    decreases |q| + |blocks|
  {
    if q == [] || blocks == [] {
    } else {
      var e := q[0];
      var (lo, hi) := BlockTsns(cumTsn, blocks[0]);
      if e.partiallyAcked || TsnCompare(e.data.tsn, lo) == Less || TsnCompare(e.data.tsn, hi) == Less {
        WalkCreditsOnce(q[1..], blocks, cumTsn);
        assert GapWalk(q, blocks, cumTsn).0[1..] == GapWalk(q[1..], blocks, cumTsn).0;
      } else {
        WalkCreditsOnce(q, blocks[1..], cumTsn);
      }
    }
  }

  lemma {:induction false} UncreditedSuffix(q: seq<ResendEntry>, k: nat)
    requires k <= |q|
    ensures Uncredited(q[k..]) <= Uncredited(q)
  {
    if k > 0 {
      UncreditedSuffix(q[1..], k - 1);
      assert q[1..][k - 1..] == q[k..];
    } else {
      assert q[0..] == q;
    }
  }

  lemma {:induction false} UncreditedSame(q: seq<ResendEntry>, p: seq<ResendEntry>)
    requires |p| == |q|
    requires forall i :: 0 <= i < |q| ==> p[i].data == q[i].data && p[i].partiallyAcked == q[i].partiallyAcked
    ensures Uncredited(p) == Uncredited(q)
  {
    if q == [] {
    } else {
      UncreditedSame(q[1..], p[1..]);
    }
  }

  lemma {:induction false} UncreditedSnoc(q: seq<ResendEntry>, e: ResendEntry)
    requires !e.partiallyAcked
    ensures Uncredited(q + [e]) == Uncredited(q) + |e.data.buf|
  {
    if q == [] {
      assert q + [e] == [e];
    } else {
      assert (q + [e])[1..] == q[1..] + [e];
      UncreditedSnoc(q[1..], e);
    }
  }

  /** Bytes that the operation credits behind a gap. */
  function Credit(s: TxState, op: TxOp): nat {
    if !(op.NotifyOp? && op.note.PeerSAck?) then 0
    else
      var sack := op.note.sack;
      match TsnCompare(s.lastAcked, sack.cumTsn)
      case Greater => 0
      case Equal => GapWalk(s.resend, sack.blocks, sack.cumTsn).1
      case Less => GapWalk(s.resend[AckedCount(s.resend, sack.cumTsn)..], sack.blocks, sack.cumTsn).1
  }

  /** Bytes that the operation puts on the wire for the first time. */
  function NewBytes(s: TxState, op: TxOp): nat {
    var m := MoveOf(s, op);
    if CanMove(CoreOf(s), m) && (m.SendWhole? || m.SendFragment?) then |Outgoing(CoreOf(s), m).buf| else 0
  }

  lemma {:induction false} SackCredits(s: TxState, sack: SelectiveAck, now: nat, next: nat)
    ensures Uncredited(HandleSack(s, sack, now).resend) + Credit(s, NotifyOp(PeerSAck(sack, now), next))
         <= Uncredited(s.resend)
  {
    match TsnCompare(s.lastAcked, sack.cumTsn)
    case Greater =>
    case Equal => WalkCreditsOnce(s.resend, sack.blocks, sack.cumTsn);
    case Less =>
      var k := AckedCount(s.resend, sack.cumTsn);
      WalkCreditsOnce(s.resend[k..], sack.blocks, sack.cumTsn);
      UncreditedSuffix(s.resend, k);
  }

  lemma {:induction false} PollCredits(s: TxState, limit: nat, packed: nat, now: nat)
    ensures Uncredited(PollData(s, limit, packed, now).0.resend)
         == Uncredited(s.resend) + NewBytes(s, PollDataOp(limit, packed, now))
  {
    var t, m := PollData(s, limit, packed, now).0, PollMove(s, limit, packed);
    PollIsMove(s, limit, packed, now);
    if m.SendWhole? || m.SendFragment? {
      UncreditedSnoc(s.resend, ResendEntry(now, Outgoing(CoreOf(s), m), false, false, false, false));
    } else {
      UncreditedSame(s.resend, t.resend);
    }
  }

  lemma {:induction false} TimeoutCredits(s: TxState, timeout: Timer, plan: ProbePlan)
    ensures Uncredited(HandleTimeout(s, timeout, plan).resend) == Uncredited(s.resend)
  {
    UncreditedSame(s.resend, RtoTimeout(s, timeout.at).resend);
  }

  lemma {:induction false} CreditStep(s: TxState, op: TxOp)
    requires Clean(op)
    ensures Credit(s, op) + Uncredited(Apply(s, op).resend) <= NewBytes(s, op) + Uncredited(s.resend)
  {
    match op
    case PollDataOp(limit, packed, now) => PollCredits(s, limit, packed, now);
    case TimeoutOp(timeout, plan) => TimeoutCredits(s, timeout, plan);
    case NotifyOp(note, next) =>
      if note.PeerSAck? {
        SackCredits(s, note.sack, note.at, next);
      }
    case _ =>
  }

  function TotalCredit(s: TxState, ops: seq<TxOp>): nat {
    if ops == [] then 0
    else TotalCredit(s, ops[..|ops| - 1]) + Credit(Run(s, ops[..|ops| - 1]), ops[|ops| - 1])
  }

  function TotalNewBytes(s: TxState, ops: seq<TxOp>): nat {
    if ops == [] then 0
    else TotalNewBytes(s, ops[..|ops| - 1]) + NewBytes(Run(s, ops[..|ops| - 1]), ops[|ops| - 1])
  }

  /** Over a whole run, whatever SACKs arrive and however often, no byte is credited twice: the credit given
      and the bytes still without credit never exceed what was sent. */
  lemma {:induction false} CreditedAtMostOnce(s: TxState, ops: seq<TxOp>)
    requires s.resend == [] && forall i :: 0 <= i < |ops| ==> Clean(ops[i])
    ensures TotalCredit(s, ops) + Uncredited(Run(s, ops).resend) <= TotalNewBytes(s, ops)
  {
    if ops == [] {
    } else {
      CreditedAtMostOnce(s, ops[..|ops| - 1]);
      CreditStep(Run(s, ops[..|ops| - 1]), ops[|ops| - 1]);
    }
  }
}
