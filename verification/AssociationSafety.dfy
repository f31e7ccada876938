/** What holds in every run of a sender and a receiver over the unreliable channel. */
module AssociationSafety {
  import opened Basics
  import opened SerialNumber
  import opened Chunks
  import opened Messages
  import opened TxModel
  import opened TxInvariants
  import opened Association
  import opened AssociationSteps
  import RxModel
  import RC = RxConservation
  import RT = RxTracking
  import SS = ShutdownSafety

  // ----- the invariant holds in every run -----

  /** The sender was told a receive window that the receiver has, and only uses streams that it knows. */
  predicate Compatible(settings: AssocTxSettings, inStreams: u16, limit: nat) {
    && settings.peerArwnd <= limit < TWO32 && settings.outBufferLimit < TWO32
    && settings.outStreams <= inStreams
  }

  lemma {:induction false} InvStep(p: Pair, init: u32, a: Action)
    requires Inv(p, init) && CanHappen(p, a)
    ensures Inv(Do(p, a), init)
  {
    match a
    case AtSender(op) =>
      SenderSends(p, op);
      SendKeepsInv(p, Do(p, a), MoveOf(p.tx, op), init);
    case DeliverData(i) =>
      DataReceives(p, init, i);
      ReceiveKeepsInv(p, Do(p, a), init);
    case DeliverSack(r, now) =>
      SackAcknowledges(p, r, now);
      AckKeepsInv(p, p.(tx := HandleSack(p.tx, r.sack, now)), init, r);
    case DeliverControl(c, now) =>
      ControlFrame(p.rx, c, now);
      NotesKeepInv(p, RxModel.HandleControl(p.rx, c, now), init);
    case PollMessage => PollKeepsInv(p, init);
    case TakeNotes => NotesKeepInv(p, p.rx.(notes := []), init);
  }

  lemma {:induction false} InitialFollows(initTsn: u32, inStreams: u16, limit: nat)
    ensures RT.Follows(RxModel.NewRx(initTsn, inStreams, limit), [], initTsn, 0, 1, [], [])
  {
    RC.EmptyStreams(inStreams);
    AtStep(initTsn, -1);
  }

  lemma {:induction false} InitialKeeps(p: Pair, settings: AssocTxSettings, now: nat)
    requires p.tx == NewTx(settings, now) && p.hist == [] && p.taken == 0 && p.accepted == []
    ensures KeepsUnacked(p, settings.initTsn) && CarriesMessages(p)
  {}

  lemma {:induction false} InitialInv(settings: AssocTxSettings, inStreams: u16, limit: nat, now: nat)
    requires Compatible(settings, inStreams, limit)
    ensures Inv(NewPair(settings, inStreams, limit, now), settings.initTsn)
  {
    var p := NewPair(settings, inStreams, limit, now);
    InitialFollows(settings.initTsn, inStreams, limit);
    InitialKeeps(p, settings, now);
    assert p.hist[0..] == [];
  }

  lemma {:induction false} InvAlways(settings: AssocTxSettings, inStreams: u16, limit: nat, now: nat,
                                     actions: seq<Action>)
    requires Compatible(settings, inStreams, limit)
    ensures Inv(RunPair(NewPair(settings, inStreams, limit, now), actions), settings.initTsn)
  {
    if actions == [] {
      InitialInv(settings, inStreams, limit, now);
    } else {
      InvAlways(settings, inStreams, limit, now, actions[..|actions| - 1]);
      var p := RunPair(NewPair(settings, inStreams, limit, now), actions[..|actions| - 1]);
      if CanHappen(p, actions[|actions| - 1]) {
        InvStep(p, settings.initTsn, actions[|actions| - 1]);
      }
    }
  }

  // ----- delivery -----

  lemma {:induction false} SelectedPrefix(some: seq<Message>, all: seq<Message>, unordered: bool)
    requires some <= all
    ensures Select(some, unordered) <= Select(all, unordered)
  {
    assert all == some + all[|some|..];
    SelectPrefix(some, all[|some|..], unordered);
  }

  lemma {:induction false} TakenIsPrefix(hist: seq<DataChunk>, n: nat, queue: seq<DataChunk>)
    requires n <= |hist|
    ensures Completed(hist[..n]) <= Completed(hist + queue)
  {
    assert hist + queue == hist[..n] + (hist[n..] + queue);
    CompletedPrefix(hist[..n], hist[n..] + queue);
  }

  lemma {:induction false} DeliveredIsPrefix(p: Pair)
    requires p.taken <= |p.hist| && RT.Delivers(p.rx, p.hist, p.taken, p.ordered, p.unordered) && CarriesMessages(p)
    ensures p.ordered <= Select(p.accepted, false) && p.unordered <= Select(p.accepted, true)
  {
    TakenIsPrefix(p.hist, p.taken, p.tx.outQueue);
    SelectedPrefix(Completed(p.hist[..p.taken]), p.accepted, false);
    SelectedPrefix(Completed(p.hist[..p.taken]), p.accepted, true);
  }

  lemma {:induction false} InvMeansPrefix(p: Pair, init: u32)
    requires Inv(p, init)
    ensures p.ordered <= Select(p.accepted, false) && p.unordered <= Select(p.accepted, true)
  {
    DeliveredIsPrefix(p);
  }

  /** End-to-end delivery: in every run, the ordered messages handed to the application are a prefix of the
      ordered messages that the sender accepted, with the same stream, protocol identifier and payload, each
      exactly once; and so are the unordered messages among themselves. */
  lemma {:induction false} PrefixDelivery(settings: AssocTxSettings, inStreams: u16, limit: nat, now: nat,
                                          actions: seq<Action>)
    requires Compatible(settings, inStreams, limit)
    ensures var p := RunPair(NewPair(settings, inStreams, limit, now), actions);
      p.ordered <= Select(p.accepted, false) && p.unordered <= Select(p.accepted, true)
  {
    InvAlways(settings, inStreams, limit, now, actions);
    InvMeansPrefix(RunPair(NewPair(settings, inStreams, limit, now), actions), settings.initTsn);
  }

  lemma {:induction false} KeepsQueued(p: Pair, init: u32, i: nat)
    requires KeepsUnacked(p, init) && i < |p.hist|
    ensures p.tx.tsnCounter == At(init, |p.hist|)
    ensures 0 <= Kept(p) <= p.taken && (i >= Kept(p) ==> p.tx.resend[i - Kept(p)].data == p.hist[i])
  {}

  /** Every chunk that ever got a TSN is still in the resend queue with its original contents, or has been taken
      in order by the receiver; the TSNs are consecutive and end right before the TSN counter. */
  ghost predicate NothingLost(p: Pair, init: u32) {
    && 0 <= Kept(p) <= p.taken && p.tx.tsnCounter == At(init, |p.hist|)
    && (forall i :: 0 <= i < |p.hist| ==> p.hist[i].tsn == At(init, i))
    && (forall i :: Kept(p) <= i < |p.hist| ==> p.tx.resend[i - Kept(p)].data == p.hist[i])
  }

  lemma {:induction false} KeepsOriginals(p: Pair, init: u32)
    requires Inv(p, init)
    ensures NothingLost(p, init)
  {
    forall i: nat | i < |p.hist|
      ensures p.tx.tsnCounter == At(init, |p.hist|) && 0 <= Kept(p) <= p.taken
      ensures i >= Kept(p) ==> p.tx.resend[i - Kept(p)].data == p.hist[i]
    {
      KeepsQueued(p, init, i);
    }
  }

  /** No data is freed early, in any run. */
  lemma {:induction false} NothingFreedEarly(settings: AssocTxSettings, inStreams: u16, limit: nat, now: nat,
                                             actions: seq<Action>)
    requires Compatible(settings, inStreams, limit)
    ensures NothingLost(RunPair(NewPair(settings, inStreams, limit, now), actions), settings.initTsn)
  {
    InvAlways(settings, inStreams, limit, now, actions);
    KeepsOriginals(RunPair(NewPair(settings, inStreams, limit, now), actions), settings.initTsn);
  }

  /** Whatever a poll returns, new or retransmitted, is the original chunk of its TSN. */
  lemma {:induction false} OnlyOriginalsOnTheWire(p: Pair, init: u32, limit: nat, packed: nat, now: nat)
    requires Inv(p, init)
    ensures var result := PollData(p.tx, limit, packed, now).1;
      result.Polled? ==> result.value in Do(p, AtSender(PollDataOp(limit, packed, now))).hist
  {
    var op := PollDataOp(limit, packed, now);
    var (t, result) := PollData(p.tx, limit, packed, now);
    if result.Polled? && t.tsnCounter == p.tx.tsnCounter {
      assert result.value in DataOf(p.tx.resend) by {
        PollIsMove(p.tx, limit, packed, now);
        RetransmitsQueued(p.tx, limit, packed, now);
      }
      assert result.value in p.hist[Kept(p)..];
    } else if result.Polled? {
      assert NewChunks(p.tx, op) == [result.value];
    }
  }

  /** The same for whole runs: no packet ever carries anything but the original chunk of its TSN. */
  lemma {:induction false} EveryPollIsOriginal(settings: AssocTxSettings, inStreams: u16, limit: nat, now: nat,
                                               actions: seq<Action>, room: nat, packed: nat, at: nat)
    requires Compatible(settings, inStreams, limit)
    ensures var p := RunPair(NewPair(settings, inStreams, limit, now), actions);
      var result := PollData(p.tx, room, packed, at).1;
      result.Polled? ==> result.value in Do(p, AtSender(PollDataOp(room, packed, at))).hist
  {
    InvAlways(settings, inStreams, limit, now, actions);
    OnlyOriginalsOnTheWire(RunPair(NewPair(settings, inStreams, limit, now), actions), settings.initTsn, room, packed,
                           at);
  }

  lemma {:induction false} RetransmitsQueued(s: TxState, limit: nat, packed: nat, now: nat)
    requires PollData(s, limit, packed, now).1.Polled? && PollData(s, limit, packed, now).0.tsnCounter == s.tsnCounter
    ensures PollData(s, limit, packed, now).1.value in DataOf(s.resend)
  {
    PollIsMove(s, limit, packed, now);
    var d := PollData(s, limit, packed, now).1.value;
    if s.window.phase.LossRecovery? {
      assert DataOf(s.resend)[0] == d;
    } else if s.window.phase.FastRecovery? {
      var i := FirstFast(s.resend, Min(limit, s.pmtu - packed) - 16);
      assert DataOf(s.resend)[i] == d;
    } else {
      assert false;
    }
  }

  // ----- flow control -----

  lemma {:induction false} RoomForMissing(p: Pair, init: u32, i: nat)
    requires Inv(p, init) && i < |p.hist|
    ensures p.rx.buffered + RT.UnacceptedBytes(p.rx, p.hist, init, p.taken) <= p.rx.limit
    ensures RT.IsAccepted(p.rx, init, p.taken, i) || RxModel.Fits(p.rx, p.hist[i])
  {
    RT.MissingIsUnaccepted(p.rx, p.hist, init, p.taken);
    if !RT.IsAccepted(p.rx, init, p.taken, i) {
      RT.IndicesAreAccepted(p.rx, p.hist, init, p.taken, i);
      RT.AbsentHas(RT.Indices(p.rx.reorder, init, p.taken), p.hist, p.taken, |p.hist|, i);
    }
  }

  /** End-to-end flow control: the bytes buffered at the receiver and the bytes sent to it but not yet accepted
      never exceed its buffer, whatever SACKs were lost, delayed or repeated; so there is room for every
      chunk on its way and neither buffer check of the receiver ever rejects one. */
  lemma {:induction false} FlowControl(settings: AssocTxSettings, inStreams: u16, limit: nat, now: nat,
                                       actions: seq<Action>, i: nat)
    requires Compatible(settings, inStreams, limit)
    requires i < |RunPair(NewPair(settings, inStreams, limit, now), actions).hist|
    ensures var p := RunPair(NewPair(settings, inStreams, limit, now), actions);
      && p.taken <= |p.hist|
      && p.rx.buffered + RT.UnacceptedBytes(p.rx, p.hist, settings.initTsn, p.taken) <= p.rx.limit
      && (RT.IsAccepted(p.rx, settings.initTsn, p.taken, i) || RxModel.Fits(p.rx, p.hist[i]))
  {
    InvAlways(settings, inStreams, limit, now, actions);
    RoomForMissing(RunPair(NewPair(settings, inStreams, limit, now), actions), settings.initTsn, i);
  }

  // ----- the receiver as a set -----

  /** The indices of the chunks that the channel delivered in the run. */
  function Delivered(p: Pair, actions: seq<Action>): set<nat> {
    if actions == [] then {}
    else
      var before, a := actions[..|actions| - 1], actions[|actions| - 1];
      Delivered(p, before) + (if a.DeliverData? && CanHappen(RunPair(p, before), a) then {a.index} else {})
  }

  lemma {:induction false} ArrivalIsAccepted(p: Pair, init: u32, j: nat, i: nat)
    requires Inv(p, init) && CanHappen(p, DeliverData(j))
    ensures RT.IsAccepted(RxModel.HandleData(p.rx, p.hist[j]), init, RT.TakenAfter(p.rx, p.hist[j], p.taken), i)
      <==> RT.IsAccepted(p.rx, init, p.taken, i) || i == j
  {
    RT.ArrivalAccepts(p.rx, p.hist, init, p.taken, p.ordered, p.unordered, j, i);
    RoomForMissing(p, init, j);
  }

  lemma {:induction false} OnlyArrivalsAreAccepted(p: Pair, a: Action)
    requires CanHappen(p, a) && !a.DeliverData?
    ensures Do(p, a).rx.reorder == p.rx.reorder && Do(p, a).taken == p.taken
  {
    if a.DeliverControl? {
      ControlFrame(p.rx, a.chunk, a.now);
    }
  }

  lemma {:induction false} AcceptedStep(p: Pair, init: u32, a: Action, i: nat)
    requires Inv(p, init) && CanHappen(p, a)
    ensures RT.IsAccepted(Do(p, a).rx, init, Do(p, a).taken, i)
      <==> RT.IsAccepted(p.rx, init, p.taken, i) || (a.DeliverData? && a.index == i)
  {
    if a.DeliverData? {
      ArrivalIsAccepted(p, init, a.index, i);
    } else {
      OnlyArrivalsAreAccepted(p, a);
    }
  }

  lemma {:induction false} AcceptedIsDelivered(settings: AssocTxSettings, inStreams: u16, limit: nat, now: nat,
                                               actions: seq<Action>, i: nat)
    requires Compatible(settings, inStreams, limit)
    ensures var p0 := NewPair(settings, inStreams, limit, now);
      var p := RunPair(p0, actions);
      RT.IsAccepted(p.rx, settings.initTsn, p.taken, i) <==> i in Delivered(p0, actions)
  {
    if actions == [] {
    } else {
      var p0, before, a := NewPair(settings, inStreams, limit, now), actions[..|actions| - 1], actions[|actions| - 1];
      AcceptedIsDelivered(settings, inStreams, limit, now, before, i);
      InvAlways(settings, inStreams, limit, now, before);
      if CanHappen(RunPair(p0, before), a) {
        AcceptedStep(RunPair(p0, before), settings.initTsn, a, i);
      }
    }
  }

  /** The receiver is a set: in every run, for every order and multiplicity of arrivals, the chunks it has
      accepted (taken in order or held in the reorder buffer, and never given up again) are exactly those that
      were delivered, and its TSN counter stands right before the first chunk that was not. */
  lemma {:induction false} ReceiverIsASet(settings: AssocTxSettings, inStreams: u16, limit: nat, now: nat,
                                          actions: seq<Action>, i: nat)
    requires Compatible(settings, inStreams, limit)
    ensures var p0 := NewPair(settings, inStreams, limit, now);
      var p := RunPair(p0, actions);
      && (RT.IsAccepted(p.rx, settings.initTsn, p.taken, i) <==> i in Delivered(p0, actions))
      && Increase(p.rx.tsnCounter) == At(settings.initTsn, p.taken)
      && p.taken !in Delivered(p0, actions) && (i < p.taken ==> i in Delivered(p0, actions))
  {
    var p0 := NewPair(settings, inStreams, limit, now);
    var p := RunPair(p0, actions);
    InvAlways(settings, inStreams, limit, now, actions);
    AcceptedIsDelivered(settings, inStreams, limit, now, actions, i);
    AcceptedIsDelivered(settings, inStreams, limit, now, actions, p.taken);
    RT.CounterIsMaximal(p.rx, p.hist, settings.initTsn, p.taken);
  }

  // ----- shutdown -----

  /** The sender's own receiver neither asks for data nor for shutdown signals to be sent. */
  predicate ProperActions(actions: seq<Action>) {
    forall i :: 0 <= i < |actions| && actions[i].AtSender? ==> SS.Proper(actions[i].op)
  }

  lemma {:induction false} OrderlyAlways(settings: AssocTxSettings, inStreams: u16, limit: nat, now: nat,
                                         actions: seq<Action>)
    requires ProperActions(actions)
    ensures SS.Orderly(RunPair(NewPair(settings, inStreams, limit, now), actions).tx)
  {
    if actions == [] {
    } else {
      var before, a := actions[..|actions| - 1], actions[|actions| - 1];
      OrderlyAlways(settings, inStreams, limit, now, before);
      var p := RunPair(NewPair(settings, inStreams, limit, now), before);
      if CanHappen(p, a) {
        if a.AtSender? {
          SS.OrderlyStep(p.tx, a.op);
        } else if a.DeliverSack? {
          SS.OrderlyStep(p.tx, NotifyOp(PeerSAck(a.record.sack, a.now), 0));
        }
      }
    }
  }

  lemma {:induction false} QuietMeansAllDelivered(p: Pair, init: u32)
    requires Inv(p, init) && SS.Quiet(p.tx)
    ensures p.ordered + RT.MessagesOf(p.rx.ordered) == Select(p.accepted, false)
    ensures p.unordered + RT.MessagesOf(p.rx.unordered) == Select(p.accepted, true)
  {
    AppendNothing(p.hist);
    assert p.taken == |p.hist| && p.hist[..p.taken] == p.hist;
  }

  lemma {:induction false} SignalMeansAllDelivered(p: Pair, init: u32, room: nat, packed: nat, at: nat)
    requires Inv(p, init) && SS.Orderly(p.tx)
    ensures var result := PollSignal(p.tx, room, packed, at).1;
      result.Polled? && SS.IsShutdownSignal(result.value) ==>
        && p.ordered + RT.MessagesOf(p.rx.ordered) == Select(p.accepted, false)
        && p.unordered + RT.MessagesOf(p.rx.unordered) == Select(p.accepted, true)
  {
    SS.SignalLeavesQuiet(p.tx, room, packed, at);
    if SS.Quiet(p.tx) {
      QuietMeansAllDelivered(p, init);
    }
  }

  /** A SHUTDOWN or SHUTDOWN ACK on the wire means that everything has arrived: at that moment the messages
      already handed over and those waiting for the application are all the messages the sender ever accepted. */
  lemma {:induction false} ShutdownMeansAllDelivered(settings: AssocTxSettings, inStreams: u16, limit: nat, now: nat,
                                                     actions: seq<Action>, room: nat, packed: nat, at: nat)
    requires Compatible(settings, inStreams, limit) && ProperActions(actions)
    ensures var p := RunPair(NewPair(settings, inStreams, limit, now), actions);
      var result := PollSignal(p.tx, room, packed, at).1;
      result.Polled? && SS.IsShutdownSignal(result.value) ==>
        && p.ordered + RT.MessagesOf(p.rx.ordered) == Select(p.accepted, false)
        && p.unordered + RT.MessagesOf(p.rx.unordered) == Select(p.accepted, true)
  {
    InvAlways(settings, inStreams, limit, now, actions);
    OrderlyAlways(settings, inStreams, limit, now, actions);
    SignalMeansAllDelivered(RunPair(NewPair(settings, inStreams, limit, now), actions), settings.initTsn, room,
                            packed, at);
  }
}
