/** Which messages can be blocked by polls that leave room for only a part of a packet. */
module PartialPackets {
  import opened Basics
  import C = Congestion
  import opened Chunks
  import opened Fragmentation
  import opened SerialNumber
  import opened TxInvariants
  import opened TxModel

  /** The run leaves the first message of the queue behind in a state in which it never leaves. */
  predicate Blocks(s: TxState, ops: seq<TxOp>) {
    SamePath(s, ops) && LeftCompletely(s, ops) == 0 && BlockedFront(Run(s, ops))
  }

  /** The run sends the first message of the queue completely. */
  predicate Completes(s: TxState, ops: seq<TxOp>) { SamePath(s, ops) && LeftCompletely(s, ops) > 0 }

  // ----- short messages -----

  lemma {:induction false} ShortStaysShort(s: TxState, ops: seq<TxOp>)
    requires s.outQueue != [] && Rest(s) <= s.pmtu - 16 && SamePath(s, ops)
    ensures LeftCompletely(s, ops) == 0 ==> Run(s, ops).outQueue != [] && Rest(Run(s, ops)) <= s.pmtu - 16
  {
    if ops == [] {
    } else {
      var before, op := ops[..|ops| - 1], ops[|ops| - 1];
      SamePathBefore(s, ops);
      ShortStaysShort(s, before);
      if LeftCompletely(s, ops) == 0 {
        MovesFit(Run(s, before), op);
        FrontAfter(Run(s, before), op);
      }
    }
  }

  // ----- one round: a piece of any size, and its acknowledgement -----

  lemma {:induction false} LastOperation(s: TxState, ops: seq<TxOp>, op: TxOp)
    ensures Run(s, ops + [op]) == Apply(Run(s, ops), op)
    ensures LeftCompletely(s, ops + [op])
         == LeftCompletely(s, ops) + if MoveOf(Run(s, ops), op).SendWhole? then 1 else 0
  {
    assert (ops + [op])[..|ops|] == ops;
  }

  lemma {:induction false} RunConcat(s: TxState, a: seq<TxOp>, b: seq<TxOp>)
    ensures Run(s, a + b) == Run(Run(s, a), b)
  {
    if b == [] {
      AppendNothing(a);
    } else {
      var c, op := b[..|b| - 1], b[|b| - 1];
      RunConcat(s, a, c);
      LastOperation(s, a + c, op);
      LastOperation(Run(s, a), c, op);
      Reassociate(a, c, [op]);
      assert c + [op] == b;
    }
  }

  lemma {:induction false} LeftConcat(s: TxState, a: seq<TxOp>, b: seq<TxOp>)
    ensures LeftCompletely(s, a + b) == LeftCompletely(s, a) + LeftCompletely(Run(s, a), b)
  {
    if b == [] {
      AppendNothing(a);
    } else {
      var c, op := b[..|b| - 1], b[|b| - 1];
      LeftConcat(s, a, c);
      RunConcat(s, a, c);
      LastOperation(s, a + c, op);
      LastOperation(Run(s, a), c, op);
      Reassociate(a, c, [op]);
      assert c + [op] == b;
    }
  }

  lemma {:induction false} OneOperation(s: TxState, op: TxOp)
    ensures Run(s, [op]) == Apply(s, op)
    ensures LeftCompletely(s, [op]) == if MoveOf(s, op).SendWhole? then 1 else 0
  {
    assert [op][..0] == [];
  }

  lemma {:induction false} TwoOperations(s: TxState, a: TxOp, b: TxOp)
    requires !MoveOf(s, a).SendWhole? && !MoveOf(Apply(s, a), b).SendWhole?
    ensures Run(s, [a, b]) == Apply(Apply(s, a), b) && LeftCompletely(s, [a, b]) == 0
  {
    OneOperation(s, a);
    OneOperation(Apply(s, a), b);
    RunConcat(s, [a], [b]);
    LeftConcat(s, [a], [b]);
    assert [a] + [b] == [a, b];
  }

  /** Everything sent was acknowledged, and nothing but the next acknowledgement is needed to go on. */
  predicate Settled(s: TxState) {
    && s.outQueue != [] && s.resend == [] && s.inFlight == 0 && !C.InRecovery(s.window)
    && TsnCompare(s.lastAcked, s.tsnCounter) == Less && s.peerWindow == TWO32 - 1 && s.pmtu < TWO32
  }

  /** A SACK that reports the largest window. */
  function Acknowledge(cumTsn: u32): TxOp { NotifyOp(PeerSAck(SelectiveAck(cumTsn, TWO32 - 1, [], []), 0), 0) }

  /** A poll of a packet with room for `k` bytes of payload. */
  function PollFor(k: nat): TxOp { PollDataOp(k + 16, 0, 0) }

  lemma {:induction false} PieceLeaves(s: TxState, k: nat)
    requires Settled(s) && Rest(s) > s.pmtu && 0 < k <= s.pmtu - 16
    ensures MoveOf(s, PollFor(k)) == SendFragment(k)
    ensures var t := Apply(s, PollFor(k));
      && t.outQueue != [] && Rest(t) == Rest(s) - k && t.tsnCounter == Increase(s.tsnCounter) && t.inFlight == k
      && |t.resend| == 1 && t.resend[0].data.tsn == s.tsnCounter && |t.resend[0].data.buf| == k
      && t.window == s.window && t.lastAcked == s.lastAcked && t.pmtu == s.pmtu
  {}

  lemma {:induction false} NextIsLess(t: u32)
    ensures TsnCompare(t, Increase(t)) == Less
  {
    StepOrder(TWO32 - 1, t, 1);
    WrapOnce(TWO32 - 1, t + 1);
  }

  /** A SACK for everything in flight settles the sender. */
  lemma {:induction false} SackSettles(s: TxState, cumTsn: u32)
    requires s.outQueue != [] && s.tsnCounter == Increase(cumTsn) && TsnCompare(s.lastAcked, cumTsn) == Less
    requires AckedCount(s.resend, cumTsn) == |s.resend| && s.inFlight == QueuedBytes(s.resend) && s.pmtu < TWO32
    requires s.inFlight > 0 || !C.InRecovery(s.window)
    ensures var t := Apply(s, Acknowledge(cumTsn)); Settled(t) && t.outQueue == s.outQueue && t.pmtu == s.pmtu
  {
    assert s.resend[..|s.resend|] == s.resend && s.resend[|s.resend|..] == [];
    assert GapWalk([], [], cumTsn) == ([], 0);
    NextIsLess(cumTsn);
  }

  lemma {:induction false} OneInFlight(e: ResendEntry)
    ensures QueuedBytes([e]) == |e.data.buf| && AckedCount([e], e.data.tsn) == 1
  {
    assert DataOf([e]) == [e.data] && PayloadBytes([]) == 0;
  }

  function Round(s: TxState, k: nat): seq<TxOp> { [PollFor(k), Acknowledge(s.tsnCounter)] }

  lemma {:induction false} RoundSettles(s: TxState, k: nat)
    requires Settled(s) && Rest(s) > s.pmtu && 0 < k <= s.pmtu - 16
    ensures var t := Apply(Apply(s, PollFor(k)), Acknowledge(s.tsnCounter));
      Settled(t) && t.pmtu == s.pmtu && Rest(t) == Rest(s) - k
  {
    PieceLeaves(s, k);
    var t := Apply(s, PollFor(k));
    assert t.resend == [t.resend[0]];
    OneInFlight(t.resend[0]);
    SackSettles(t, s.tsnCounter);
  }

  /** A piece of any size can be cut off a long message. */
  lemma {:induction false} RoundCuts(s: TxState, k: nat)
    requires Settled(s) && Rest(s) > s.pmtu && 0 < k <= s.pmtu - 16
    ensures var t := Run(s, Round(s, k));
      && Settled(t) && Rest(t) == Rest(s) - k && t.pmtu == s.pmtu
      && SamePath(s, Round(s, k)) && LeftCompletely(s, Round(s, k)) == 0
  {
    PieceLeaves(s, k);
    RoundSettles(s, k);
    TwoOperations(s, PollFor(k), Acknowledge(s.tsnCounter));
  }

  // ----- long messages -----

  lemma {:induction false} AfterRound(s: TxState, k: nat, more: seq<TxOp>)
    requires Settled(s) && Rest(s) > s.pmtu && 0 < k <= s.pmtu - 16 && SamePath(Run(s, Round(s, k)), more)
    ensures Blocks(Run(s, Round(s, k)), more) ==> Blocks(s, Round(s, k) + more)
    ensures Completes(Run(s, Round(s, k)), more) ==> Completes(s, Round(s, k) + more)
  {
    RoundCuts(s, k);
    RunConcat(s, Round(s, k), more);
    LeftConcat(s, Round(s, k), more);
  }

  /** Full pieces until less than two packets are left, and then a piece that leaves one of the sixteen lengths. */
  lemma {:induction false} CanBlock(s: TxState) returns (ops: seq<TxOp>)
    requires Settled(s) && Rest(s) > s.pmtu
    ensures Blocks(s, ops)
    decreases Rest(s)
  {
    var k := Min(Rest(s) - s.pmtu, s.pmtu - 16);
    var t := Run(s, Round(s, k));
    RoundCuts(s, k);
    var more := [];
    if Rest(t) > s.pmtu {
      more := CanBlock(t);
    }
    AfterRound(s, k, more);
    ops := Round(s, k) + more;
  }

  lemma {:induction false} ShortLeaves(s: TxState)
    requires Settled(s) && Rest(s) <= s.pmtu - 16
    ensures Completes(s, [PollFor(s.pmtu - 16)])
  {
    OneOperation(s, PollFor(s.pmtu - 16));
    PollKeepsSignals(s, s.pmtu, 0, 0);
  }

  /** Full pieces, unless one would leave one of the sixteen lengths: then a small piece comes first. */
  lemma {:induction false} CanComplete(s: TxState) returns (ops: seq<TxOp>)
    requires Settled(s) && (Rest(s) <= s.pmtu - 16 || Rest(s) > s.pmtu)
    ensures Completes(s, ops)
    decreases Rest(s)
  {
    if Rest(s) <= s.pmtu - 16 {
      ShortLeaves(s);
      ops := [PollFor(s.pmtu - 16)];
    } else {
      var k := if 2 * s.pmtu - 32 < Rest(s) <= 2 * s.pmtu - 16 then 17 else s.pmtu - 16;
      RoundCuts(s, k);
      var more := CanComplete(Run(s, Round(s, k)));
      AfterRound(s, k, more);
      ops := Round(s, k) + more;
    }
  }

  // ----- every state -----

  /** Every TSN that was sent can still be acknowledged, and so can the next one. */
  predicate Acknowledgeable(s: TxState) {
    && |s.resend| <= TSN_RADIUS
    && TsnCompare(s.lastAcked, if s.resend == [] then s.tsnCounter else Decrease(s.tsnCounter)) == Less
  }

  lemma {:induction false} AllCovered(s: TxState)
    requires Numbered(CoreOf(s)) && |s.resend| <= TSN_RADIUS
    ensures AckedCount(s.resend, Decrease(s.tsnCounter)) == |s.resend|
  {
    AtStep(s.tsnCounter, -1);
    assert At(s.tsnCounter, 0) == s.tsnCounter;
    var cum := Decrease(s.tsnCounter);
    forall i | 0 <= i < |s.resend| ensures AckedBy(s.resend[i], cum) {
      assert s.resend[i].data == CoreOf(s).sent[i];
      CompareAt(s.tsnCounter, i - |s.resend|, -1);
    }
  }

  /** The SACK that settles a sender: for everything in flight, or the last one again with a larger window. */
  function Settling(s: TxState): TxOp {
    Acknowledge(if s.resend == [] then s.lastAcked else Decrease(s.tsnCounter))
  }

  lemma {:induction false} CanSettle(s: TxState)
    requires Sound(s) && Live(s) && s.outQueue != [] && Acknowledgeable(s) && s.pmtu < TWO32
    ensures var t := Apply(s, Settling(s)); Settled(t) && t.outQueue == s.outQueue && t.pmtu == s.pmtu
  {
    if s.resend == [] {
      assert GapWalk([], [], s.lastAcked) == ([], 0);
    } else {
      AllCovered(s);
      PositiveBytes(DataOf(s.resend));
      SackSettles(s, Decrease(s.tsnCounter));
    }
  }

  lemma {:induction false} AfterSettling(s: TxState, more: seq<TxOp>)
    requires Sound(s) && Live(s) && s.outQueue != [] && Acknowledgeable(s) && s.pmtu < TWO32
    requires SamePath(Apply(s, Settling(s)), more)
    ensures Blocks(Apply(s, Settling(s)), more) ==> Blocks(s, [Settling(s)] + more)
    ensures Completes(Apply(s, Settling(s)), more) ==> Completes(s, [Settling(s)] + more)
  {
    CanSettle(s);
    OneOperation(s, Settling(s));
    RunConcat(s, [Settling(s)], more);
    LeftConcat(s, [Settling(s)], more);
  }

  lemma {:induction false} LongGoesBothWays(s: TxState)
    requires Sound(s) && Live(s) && s.outQueue != [] && Acknowledgeable(s) && s.pmtu < TWO32 && !BlockedFront(s)
    ensures exists ops :: Completes(s, ops)
    ensures Rest(s) > s.pmtu ==> exists ops :: Blocks(s, ops)
  {
    CanSettle(s);
    var t := Apply(s, Settling(s));
    var more := CanComplete(t);
    AfterSettling(s, more);
    assert Completes(s, [Settling(s)] + more);
    if Rest(s) > s.pmtu {
      var others := CanBlock(t);
      AfterSettling(s, others);
      assert Blocks(s, [Settling(s)] + others);
    }
  }

  /** Over all runs in which the path MTU stays the same, whatever the size of the packets: the front message can be
      blocked for good exactly if it is longer than a packet takes, and it can leave completely exactly unless it has
      one of the sixteen lengths. So a short message is blocked in no run, the sixteen lengths leave in none, and every
      longer message is blocked in one run and leaves in another. */
  lemma {:induction false} BlocksExactly(s: TxState)
    requires Sound(s) && Live(s) && s.outQueue != [] && Acknowledgeable(s) && s.pmtu < TWO32
    ensures (exists ops :: Blocks(s, ops)) <==> |s.outQueue[0].buf| > s.pmtu - 16
    ensures (exists ops :: Completes(s, ops)) <==> !(s.pmtu - 16 < |s.outQueue[0].buf| <= s.pmtu)
  {
    if BlockedFront(s) {
      assert Blocks(s, []);
      forall ops ensures !Completes(s, ops) {
        if SamePath(s, ops) {
          BlockedForGood(s, ops);
        }
      }
    } else {
      LongGoesBothWays(s);
      if Rest(s) <= s.pmtu - 16 {
        forall ops ensures !Blocks(s, ops) {
          if SamePath(s, ops) {
            ShortStaysShort(s, ops);
          }
        }
      }
    }
  }

  // ----- a message that a half-filled packet blocks -----

  lemma {:induction false} SmallPieceLeaves(s: TxState, now: nat)
    requires s.outQueue != [] && Rest(s) == 1232 && s.pmtu == 1200 && s.inFlight == 0 && s.peerWindow >= 40
    requires s.window.phase.SlowStart?
    ensures var t := PollData(s, 1200, 1144, now).0; t.pmtu == 1200 && t.outQueue != [] && Rest(t) == 1192
  {}

  /** A message of 1232 bytes on a fresh path leaves with two full packets; but if its first poll finds only 56 bytes
      free in the packet, 1192 bytes stay behind for good. */
  lemma {:induction false} HalfFilledPacketBlocks(settings: AssocTxSettings, data: Bytes, now: nat, more: seq<TxOp>)
    requires |data| == 1232 && settings.outStreams > 0 && 1232 <= settings.outBufferLimit && 40 <= settings.peerArwnd
    requires SamePath(PollData(TrySend(NewTx(settings, 0), data, 0, 0, false, false).0, 1200, 1144, now).0, more)
    ensures var s := TrySend(NewTx(settings, 0), data, 0, 0, false, false).0;
      var t := PollData(s, 1200, 1144, now).0;
      && Sendable(1232, s.pmtu - 16) && t.outQueue != [] && Rest(t) == 1192
      && NothingSent(t, Run(t, more)) && LeftCompletely(t, more) == 0
  {
    FirstMessage(settings, data);
    var s := TrySend(NewTx(settings, 0), data, 0, 0, false, false).0;
    SmallPieceLeaves(s, now);
    BlockedForGood(PollData(s, 1200, 1144, now).0, more);
  }
}
