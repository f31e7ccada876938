/** The first byte of an association, step by step: concrete runs that show what can go wrong. */
module FirstByte {
  import opened Association
  import opened Basics
  import opened Chunks
  import opened Messages
  import R = RoundTrip
  import RT = RxTracking
  import RxModel
  import opened SerialNumber
  import opened TxModel

  /** One stream, a send buffer of 100 bytes, the first TSN and the receive window that the peer announced. */
  function Settings(first: u32, window: u32): AssocTxSettings { AssocTxSettings(IpV4(1), first, 1, 100, window) }

  function Fresh(first: u32, window: u32, limit: nat): Pair { NewPair(Settings(first, window), 1, limit, 0) }

  /** The application sends a byte, and perhaps a second message of one byte; the first one is polled. */
  function SendFirst(two: bool): seq<Action> {
    [AtSender(TrySendOp([7], 0, 0, false, false))]
    + (if two then [AtSender(TrySendOp([8], 0, 0, false, false))] else [])
    + [AtSender(PollDataOp(1000, 0, 0))]
  }

  function Queued(value: byte, seqNum: u16): DataChunk { DataChunk(0, 0, seqNum, 0, [value], false, false, true, true) }

  function FirstChunk(first: u32): DataChunk { Queued(7, 0).(tsn := first) }

  // ----- the states -----

  function QueuedTx(first: u32, window: u32, two: bool): TxState {
    NewTx(Settings(first, window), 0).(
      outBuffered := if two then 2 else 1,
      outQueue := [Queued(7, 0)] + (if two then [Queued(8, 1)] else []),
      streams := [if two then 2 else 1])
  }

  const FIRST_TIMER: Timer := Timer(R.UNMEASURED_RTO, 1)

  function SentTx(first: u32, window: u32, two: bool): TxState
    requires window >= 1
  {
    QueuedTx(first, window, two).(
      outQueue := if two then [Queued(8, 1)] else [],
      resend := [ResendEntry(0, FirstChunk(first), false, false, false, false)],
      tsnCounter := Increase(first), inFlight := 1, peerWindow := window - 1,
      rtt := R.Sent(R.NEW, first, 0), rtoTimer := Some(FIRST_TIMER), timerCtr := 2)
  }

  function Sends(two: bool): seq<Message> {
    [Message(0, 0, false, [7])] + (if two then [Message(0, 0, false, [8])] else [])
  }

  function SentPair(first: u32, window: u32, limit: nat, two: bool): Pair
    requires window >= 1
  {
    Fresh(first, window, limit).(tx := SentTx(first, window, two), hist := [FirstChunk(first)], accepted := Sends(two))
  }

  /** The SACK for the first byte; nothing was fetched by the application yet. */
  function FirstSack(first: u32, limit: nat): SelectiveAck
    requires 1 <= limit < TWO32
  {
    SelectiveAck(first, limit - 1, [], [])
  }

  function TakenRx(first: u32, limit: nat): RxModel.RxState
    requires 1 <= limit < TWO32
  {
    RxModel.NewRx(first, 1, limit).(
      tsnCounter := first, lastSentArwnd := limit - 1, buffered := 1,
      ordered := [RxModel.Event(0, 0, false, [FirstChunk(first)])],
      notes := [Send(SAck(FirstSack(first, limit)))])
  }

  function TakenPair(first: u32, window: u32, limit: nat, two: bool): Pair
    requires window >= 1 && 1 <= limit < TWO32
  {
    SentPair(first, window, limit, two).(
      rx := TakenRx(first, limit), taken := 1, sacks := {SackRecord(FirstSack(first, limit), 1)})
  }

  // ----- the steps -----

  lemma {:induction false} OneMore(p: Pair, actions: seq<Action>, a: Action)
    ensures RunPair(p, actions + [a]) == Step(RunPair(p, actions), a)
  {
    assert (actions + [a])[..|actions|] == actions;
  }

  lemma {:induction false} FirstAccepted(p: Pair, first: u32, window: u32, limit: nat)
    requires p == Fresh(first, window, limit)
    ensures Step(p, AtSender(TrySendOp([7], 0, 0, false, false)))
         == p.(tx := QueuedTx(first, window, false), accepted := Sends(false))
  {
    assert p.tx.streams == [0];
    AppendNothing(p.hist);
  }

  lemma {:induction false} SecondAccepted(p: Pair, first: u32, window: u32)
    requires p.tx == QueuedTx(first, window, false) && p.accepted == Sends(false)
    ensures Step(p, AtSender(TrySendOp([8], 0, 0, false, false)))
         == p.(tx := QueuedTx(first, window, true), accepted := Sends(true))
  {
    AppendNothing(p.hist);
  }

  lemma {:induction false} FirstPolled(s: TxState, first: u32, window: u32, two: bool)
    requires s == QueuedTx(first, window, two) && window >= 1
    ensures PollData(s, 1000, 0, 0) == (SentTx(first, window, two), Polled(FirstChunk(first)))
  {
    assert s.outQueue[0] == Queued(7, 0) && s.outQueue[1..] == if two then [Queued(8, 1)] else [];
    assert s.window.cwnd > 0;
    var e := ResendEntry(0, FirstChunk(first), false, false, false, false);
    AppendNothing([e]);
    assert Book(s.(outQueue := s.outQueue[1..]), FirstChunk(first), 0)
        == SentTx(first, window, two).(rtoTimer := None, timerCtr := 1);
  }

  lemma {:induction false} FirstOnWire(p: Pair, first: u32, window: u32, two: bool)
    requires p.tx == QueuedTx(first, window, two) && window >= 1
    ensures Step(p, AtSender(PollDataOp(1000, 0, 0)))
         == p.(tx := SentTx(first, window, two), hist := p.hist + [FirstChunk(first)])
  {
    FirstPolled(p.tx, first, window, two);
    AppendNothing(p.accepted);
    assert Increase(first) != first;
  }

  lemma {:induction false} FirstSent(first: u32, window: u32, limit: nat, two: bool)
    requires window >= 1
    ensures RunPair(Fresh(first, window, limit), SendFirst(two)) == SentPair(first, window, limit, two)
  {
    var p, one := Fresh(first, window, limit), [AtSender(TrySendOp([7], 0, 0, false, false))];
    OneMore(p, [], one[0]);
    AppendNothing(one);
    FirstAccepted(p, first, window, limit);
    var queued := one;
    if two {
      OneMore(p, one, AtSender(TrySendOp([8], 0, 0, false, false)));
      SecondAccepted(RunPair(p, one), first, window);
      queued := one + [AtSender(TrySendOp([8], 0, 0, false, false))];
    } else {
      AppendNothing(one);
    }
    OneMore(p, queued, AtSender(PollDataOp(1000, 0, 0)));
    FirstOnWire(RunPair(p, queued), first, window, two);
  }

  lemma {:induction false} FirstHandled(r: RxModel.RxState, first: u32, limit: nat)
    requires 1 <= limit < TWO32 && r == RxModel.NewRx(first, 1, limit)
    ensures RxModel.HandleData(r, FirstChunk(first)) == TakenRx(first, limit)
    ensures RT.TakenAfter(r, FirstChunk(first), 0) == 1
  {
    var d := FirstChunk(first);
    var a := RxModel.Accept(r, d);
    assert Increase(r.tsnCounter) == first;
    assert r.streams[0] == map[] && r.streams[0] - {0} == map[];
    assert a.streams == r.streams;
    assert RxModel.Pieces(r.streams[0], d) == [d];
    assert !RxModel.NextIsBuffered(a);
  }

  lemma {:induction false} FirstTaken(first: u32, window: u32, limit: nat, two: bool)
    requires window >= 1 && 1 <= limit < TWO32
    ensures RunPair(Fresh(first, window, limit), SendFirst(two) + [DeliverData(0)])
         == TakenPair(first, window, limit, two)
  {
    var p := SentPair(first, window, limit, two);
    FirstSent(first, window, limit, two);
    OneMore(Fresh(first, window, limit), SendFirst(two), DeliverData(0));
    FirstHandled(p.rx, first, limit);
  }

  // ----- the acknowledgement -----

  /** The first byte is sent, received and acknowledged. */
  function AckFirst(first: u32, limit: nat, two: bool): seq<Action>
    requires 1 <= limit < TWO32
  {
    SendFirst(two) + [DeliverData(0)] + [DeliverSack(SackRecord(FirstSack(first, limit), 1), 0)]
  }

  function AckedPair(first: u32, window: u32, limit: nat, two: bool): Pair
    requires window >= 1 && 1 <= limit < TWO32
  {
    var p := TakenPair(first, window, limit, two);
    p.(tx := HandleSack(p.tx, FirstSack(first, limit), 0))
  }

  lemma {:induction false} SackEmptiesQueue(s: TxState, first: u32, window: u32, limit: nat, two: bool)
    requires window >= 1 && 1 <= limit < TWO32 && s == SentTx(first, window, two) && TsnCompare(0, first) == Less
    ensures var t := HandleSack(s, FirstSack(first, limit), 0);
      && t.resend == [] && t.outQueue == s.outQueue && t.peerWindow == limit - 1 && t.pmtu == 1200
      && t.lastAcked == first && t.window.phase.SlowStart? && t.shutdown.None? && t.sendNext == []
  {
    assert AckedCount(s.resend, first) == 1;
    assert s.resend[1..] == [] && s.resend[..1] == s.resend;
    assert GapWalk([], [], first) == ([], 0);
    assert DataOf(s.resend) == [FirstChunk(first)];
    assert PayloadBytes([FirstChunk(first)]) == 1;
  }

  lemma {:induction false} FirstAcked(first: u32, window: u32, limit: nat, two: bool)
    requires window >= 1 && 1 <= limit < TWO32
    ensures RunPair(Fresh(first, window, limit), AckFirst(first, limit, two)) == AckedPair(first, window, limit, two)
  {
    var p, r := TakenPair(first, window, limit, two), SackRecord(FirstSack(first, limit), 1);
    FirstTaken(first, window, limit, two);
    OneMore(Fresh(first, window, limit), SendFirst(two) + [DeliverData(0)], DeliverSack(r, 0));
    assert CanHappen(p, DeliverSack(r, 0));
  }
}
