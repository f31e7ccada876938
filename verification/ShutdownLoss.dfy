/** What a SHUTDOWN that arrives costs: messages that the application did not fetch in time. */
module ShutdownLoss {
  import opened Association
  import opened AssociationSafety
  import opened Basics
  import opened Chunks
  import F = FirstByte
  import opened Messages
  import RT = RxTracking
  import RxModel
  import opened SerialNumber
  import SS = ShutdownSafety
  import opened TxModel

  // ----- a closed receiver hands over nothing -----

  /** The receiver is closed, and no more was handed over than before. */
  ghost predicate HandsOverNothing(p: Pair, n: Pair) {
    n.rx.shutdown.Some? && n.ordered == p.ordered && n.unordered == p.unordered
  }

  lemma {:induction false} ClosedStep(p: Pair, a: Action)
    requires p.rx.shutdown.Some?
    ensures HandsOverNothing(p, Step(p, a))
  {
    if a.DeliverData? && CanHappen(p, a) {
      RxModel.DataFrame(p.rx, p.hist[a.index]);
    }
  }

  lemma {:induction false} ClosedForever(p: Pair, more: seq<Action>)
    requires p.rx.shutdown.Some?
    ensures HandsOverNothing(p, RunPair(p, more))
  {
    if more == [] {
    } else {
      ClosedForever(p, more[..|more| - 1]);
      ClosedStep(RunPair(p, more[..|more| - 1]), more[|more| - 1]);
    }
  }

  // ----- a sender that announced its shutdown accepts nothing -----

  ghost predicate Finished(s: TxState) { SS.Quiet(s) && s.shutdown.Some? }

  lemma {:induction false} FinishedStep(p: Pair, a: Action)
    requires Finished(p.tx)
    ensures Finished(Step(p, a).tx) && Step(p, a).accepted == p.accepted
  {
    if CanHappen(p, a) {
      if a.AtSender? {
        SS.QuietStays(p.tx, a.op);
        AppendNothing(p.accepted);
      } else if a.DeliverSack? {
        SS.QuietStays(p.tx, NotifyOp(PeerSAck(a.record.sack, a.now), 0));
      }
    }
  }

  lemma {:induction false} FinishedForever(p: Pair, more: seq<Action>)
    requires Finished(p.tx)
    ensures Finished(RunPair(p, more).tx) && RunPair(p, more).accepted == p.accepted
  {
    if more == [] {
    } else {
      FinishedForever(p, more[..|more| - 1]);
      FinishedStep(RunPair(p, more[..|more| - 1]), more[|more| - 1]);
    }
  }

  // ----- the loss -----

  lemma {:induction false} AllHandedOverExactly(handed: seq<Message>, waiting: seq<RxModel.Event>, all: seq<Message>)
    requires handed + RT.MessagesOf(waiting) == all
    ensures handed == all <==> waiting == []
  {
    assert |handed| + |waiting| == |all|;
    if waiting == [] {
      AppendNothing(handed);
    }
  }

  lemma {:induction false} LostExactlyIfWaiting(p: Pair, init: u32)
    requires Inv(p, init) && SS.Quiet(p.tx)
    ensures (p.ordered == Select(p.accepted, false) && p.unordered == Select(p.accepted, true))
      <==> (p.rx.ordered == [] && p.rx.unordered == [])
  {
    QuietMeansAllDelivered(p, init);
    AllHandedOverExactly(p.ordered, p.rx.ordered, Select(p.accepted, false));
    AllHandedOverExactly(p.unordered, p.rx.unordered, Select(p.accepted, true));
  }

  lemma {:induction false} ShutdownCloses(p: Pair, c: Chunk, at: nat)
    requires c.ShutDown? || c.ShutDownAck?
    ensures var n := Step(p, DeliverControl(c, at)); n == p.(rx := n.rx) && n.rx.shutdown.Some?
  {}

  lemma {:induction false} AfterShutdown(p: Pair, c: Chunk, at: nat, more: seq<Action>)
    requires Finished(p.tx) && (c.ShutDown? || c.ShutDownAck?)
    ensures var q := RunPair(Step(p, DeliverControl(c, at)), more);
      q.ordered == p.ordered && q.unordered == p.unordered && q.accepted == p.accepted
  {
    ShutdownCloses(p, c, at);
    ClosedForever(Step(p, DeliverControl(c, at)), more);
    FinishedForever(Step(p, DeliverControl(c, at)), more);
  }

  /** In every run: once a SHUTDOWN or SHUTDOWN ACK of the sender arrives, no continuation hands over anything more; so
      everything that the sender accepted is handed over exactly if nothing waited for the application then. */
  lemma {:induction false} ShutdownLosesWaiting(settings: AssocTxSettings, inStreams: u16, limit: nat, now: nat,
                                                actions: seq<Action>, c: Chunk, at: nat, more: seq<Action>)
    requires Compatible(settings, inStreams, limit) && ProperActions(actions) && (c.ShutDown? || c.ShutDownAck?)
    requires SS.Announced(RunPair(NewPair(settings, inStreams, limit, now), actions).tx)
    ensures var p := RunPair(NewPair(settings, inStreams, limit, now), actions);
      var q := RunPair(Step(p, DeliverControl(c, at)), more);
      && q.ordered == p.ordered && q.unordered == p.unordered && q.accepted == p.accepted
      && ((q.ordered == Select(q.accepted, false) && q.unordered == Select(q.accepted, true))
          <==> (p.rx.ordered == [] && p.rx.unordered == []))
  {
    InvAlways(settings, inStreams, limit, now, actions);
    OrderlyAlways(settings, inStreams, limit, now, actions);
    var p := RunPair(NewPair(settings, inStreams, limit, now), actions);
    LostExactlyIfWaiting(p, settings.initTsn);
    AfterShutdown(p, c, at, more);
  }

  // ----- a message that is lost -----

  /** The first byte is sent, received and acknowledged; then the sender shuts down, and the signal leaves. */
  function SendAndClose(first: u32, limit: nat): seq<Action>
    requires 1 <= limit < TWO32
  {
    F.AckFirst(first, limit, false) + [AtSender(InitiateShutdownOp)] + [AtSender(PollSignalOp(1000, 0, 0))]
  }

  lemma {:induction false} SignalLeaves(p: Pair)
    requires SS.Quiet(p.tx) && p.tx.sendNext == []
    ensures var closing := p.tx.(shutdown := Some(TryingTo));
      && Step(p, AtSender(InitiateShutdownOp)) == p.(tx := closing)
      && PollSignal(closing, 1000, 0, 0).1 == Polled(ShutDown(p.tx.peerLastAcked))
  {
    AppendNothing(p.hist);
    AppendNothing(p.accepted);
  }

  lemma {:induction false} ClosingSends(p: Pair)
    requires SS.Quiet(p.tx) && p.tx.sendNext == [] && p.tx.shutdown == Some(TryingTo)
    ensures var n := Step(p, AtSender(PollSignalOp(1000, 0, 0)));
      n == p.(tx := n.tx) && Finished(n.tx) && n.tx.shutdown == Some(ShutdownSent)
  {
    AppendNothing(p.hist);
    AppendNothing(p.accepted);
  }

  lemma {:induction false} SendAndCloseRun(first: u32, window: u32, limit: nat)
    requires 1 <= window <= limit < TWO32 && TsnCompare(0, first) == Less
    ensures var p := RunPair(F.Fresh(first, window, limit), SendAndClose(first, limit));
      p == F.AckedPair(first, window, limit, false).(tx := p.tx) && Finished(p.tx) && SS.Announced(p.tx)
  {
    var start, acked := F.Fresh(first, window, limit), F.AckFirst(first, limit, false);
    var p := F.AckedPair(first, window, limit, false);
    F.FirstAcked(first, window, limit, false);
    F.SackEmptiesQueue(F.SentTx(first, window, false), first, window, limit, false);
    F.OneMore(start, acked, AtSender(InitiateShutdownOp));
    F.OneMore(start, acked + [AtSender(InitiateShutdownOp)], AtSender(PollSignalOp(1000, 0, 0)));
    SignalLeaves(p);
    ClosingSends(Step(p, AtSender(InitiateShutdownOp)));
  }

  /** The byte waits for the application when the SHUTDOWN arrives, and no continuation hands it over. */
  lemma {:induction false} WaitingByteIsLost(first: u32, window: u32, limit: nat, more: seq<Action>)
    requires 1 <= window <= limit < TWO32 && TsnCompare(0, first) == Less
    ensures var p := RunPair(F.Fresh(first, window, limit), SendAndClose(first, limit));
      var q := RunPair(Step(p, DeliverControl(ShutDown(p.tx.peerLastAcked), 0)), more);
      && SS.Announced(p.tx) && |p.rx.ordered| == 1
      && q.accepted == [Message(0, 0, false, [7])] && q.ordered == [] && q.unordered == []
  {
    SendAndCloseRun(first, window, limit);
    var p := RunPair(F.Fresh(first, window, limit), SendAndClose(first, limit));
    AfterShutdown(p, ShutDown(p.tx.peerLastAcked), 0, more);
  }
}
