/** A receive window that closed, and when it opens again: the receiver never says so of its own accord. */
module ClosedWindow {
  import opened AckProgress
  import opened Association
  import opened AssociationSafety
  import opened AssociationSteps
  import opened Basics
  import C = Congestion
  import opened CatchingUp
  import opened Chunks
  import F = FirstByte
  import L = LostSack
  import opened PanicFreedom
  import opened SerialNumber
  import opened TxInvariants
  import opened TxModel

  // ----- how much window the next chunk needs -----

  /** The window lets something of the front message leave: all of it, or a piece of it if it has to be cut. No path MTU
      that a probe can report is too small for the message. */
  predicate Enough(length: nat, pmtu: int, window: nat) {
    if length > pmtu then window > 0 else length <= window && length + 16 <= Max(pmtu, TWO32 - 1)
  }

  /** The sender's window, or the window in some SACK that covers everything sent, is enough for the front message. */
  ghost predicate CanReopen(p: Pair)
    requires p.tx.outQueue != []
  {
    var length := |p.tx.outQueue[0].buf|;
    || Enough(length, p.tx.pmtu, p.tx.peerWindow)
    || exists r :: r in p.sacks && r.covers == |p.hist| && Enough(length, p.tx.pmtu, r.sack.aRwnd)
  }

  /** Everything sent was acknowledged; SACKs exist only if something was sent. */
  ghost predicate Idle(p: Pair, init: u32) {
    && p.tx.resend == [] && !C.InRecovery(p.tx.window)
    && (p.sacks != {} ==> p.tx.lastAcked == At(init, |p.hist| - 1))
  }

  /** A path MTU that only grows by 32-bit probes never makes a window enough that was not. */
  lemma {:induction false} NeverEnough(length: nat, pmtu: int, larger: int, window: nat)
    requires !Enough(length, pmtu, window) && 0 <= pmtu <= larger <= Max(pmtu, TWO32 - 1)
    ensures !Enough(length, larger, window)
  {}

  // ----- without window nothing new is sent -----

  /** Nothing is on its way, and no window that the sender has or can still be told is enough. */
  ghost predicate Starved(p: Pair, init: u32) { p.tx.outQueue != [] && Idle(p, init) && !CanReopen(p) }

  lemma {:induction false} NoteBound(s: TxState, note: TxNotification, next: nat)
    requires !note.PeerSAck?
    ensures s.pmtu <= Notify(s, note, next).pmtu <= Max(s.pmtu, TWO32 - 1)
  {}

  lemma {:induction false} PmtuBound(s: TxState, op: TxOp)
    requires !IsSack(op)
    ensures s.pmtu <= Apply(s, op).pmtu <= Max(s.pmtu, TWO32 - 1)
  {
    if op.NotifyOp? {
      NoteBound(s, op.note, op.next);
    } else if op.TimeoutOp? {
      RtoKeepsSignals(s, op.timeout.at);
    } else if op.PollDataOp? {
      PollKeepsSignals(s, op.limit, op.packed, op.now);
    }
  }

  lemma {:induction false} NothingIsSent(s: TxState, op: TxOp)
    requires s.outQueue != [] && !Enough(|s.outQueue[0].buf|, s.pmtu, s.peerWindow) && Clean(op) && !IsSack(op)
    ensures MoveOf(s, op).Stay? || MoveOf(s, op).Enqueue?
  {}

  /** The same front, the same window, nothing in flight; perhaps more messages behind and a larger path MTU. */
  ghost predicate StillIdle(s: TxState, t: TxState) {
    && s.outQueue != [] && s.outQueue <= t.outQueue && t.resend == [] && !C.InRecovery(t.window)
    && t.peerWindow == s.peerWindow && t.lastAcked == s.lastAcked && s.pmtu <= t.pmtu <= Max(s.pmtu, TWO32 - 1)
  }

  lemma {:induction false} OperationStaysIdle(s: TxState, op: TxOp)
    requires s.outQueue != [] && !Enough(|s.outQueue[0].buf|, s.pmtu, s.peerWindow) && Clean(op) && !IsSack(op)
    requires s.resend == [] && !C.InRecovery(s.window)
    ensures StillIdle(s, Apply(s, op)) && NewChunks(s, op) == []
  {
    var t := Apply(s, op);
    NothingIsSent(s, op);
    SenderOutput(s, op);
    SenderFrame(s, op);
    OperationRecovers(s, op);
    PmtuBound(s, op);
    assert |DataOf(t.resend)| == |t.resend| && DataOf(s.resend) == [];
    assert t.outQueue == CoreOf(t).outQueue && DataOf(t.resend) == CoreOf(t).sent;
  }

  /** The sender has moved from one idle state to another, and was told no new window. */
  lemma {:induction false} StaysStarved(p: Pair, n: Pair, init: u32)
    requires Starved(p, init) && n.hist == p.hist && n.sacks == p.sacks && StillIdle(p.tx, n.tx)
    ensures Starved(n, init)
  {
    var length := |p.tx.outQueue[0].buf|;
    NeverEnough(length, p.tx.pmtu, n.tx.pmtu, p.tx.peerWindow);
    forall r | r in n.sacks && r.covers == |n.hist| ensures !Enough(length, n.tx.pmtu, r.sack.aRwnd) {
      NeverEnough(length, p.tx.pmtu, n.tx.pmtu, r.sack.aRwnd);
    }
  }

  /** A SACK for everything that was sent, while nothing is in flight, only tells its window. */
  lemma {:induction false} SackTellsWindow(s: TxState, sack: SelectiveAck, now: nat)
    requires s.resend == [] && s.inFlight == 0 && !C.InRecovery(s.window) && sack.cumTsn == s.lastAcked
    ensures var t := HandleSack(s, sack, now);
      && t.outQueue == s.outQueue && t.resend == [] && !C.InRecovery(t.window) && t.peerWindow == sack.aRwnd
      && t.lastAcked == s.lastAcked && t.pmtu == s.pmtu && t.inFlight == 0
  {
    assert GapWalk([], sack.blocks, sack.cumTsn) == ([], 0);
  }

  lemma {:induction false} NothingInFlight(p: Pair, init: u32)
    requires Inv(p, init) && p.tx.resend == []
    ensures p.tx.inFlight == 0 && Kept(p) == p.taken == |p.hist|
  {}

  /** While nothing is in flight a SACK is the one for everything that was sent, or an old one. */
  lemma {:induction false} SackCompares(p: Pair, init: u32, r: SackRecord)
    requires p.tx.lastAcked == At(init, |p.hist| - 1) && r.sack.cumTsn == At(init, r.covers - 1)
    requires 0 <= |p.hist| - r.covers <= TSN_RADIUS
    ensures r.covers == |p.hist| ==> r.sack.cumTsn == p.tx.lastAcked
    ensures r.covers < |p.hist| ==> TsnCompare(p.tx.lastAcked, r.sack.cumTsn) == Greater
  {
    CompareAt(init, |p.hist| - 1, r.covers - 1);
  }

  lemma {:induction false} ToldWindow(p: Pair, init: u32, r: SackRecord, tx: TxState)
    requires Starved(p, init) && r in p.sacks && r.covers == |p.hist|
    requires tx.outQueue == p.tx.outQueue && tx.resend == [] && !C.InRecovery(tx.window)
    requires tx.peerWindow == r.sack.aRwnd && tx.lastAcked == p.tx.lastAcked && tx.pmtu == p.tx.pmtu
    ensures Starved(p.(tx := tx), init)
  {}

  lemma {:induction false} SackStaysStarved(p: Pair, init: u32, r: SackRecord, now: nat)
    requires Starved(p, init) && r in p.sacks && p.tx.inFlight == 0 && r.sack.cumTsn == At(init, r.covers - 1)
    requires 0 <= |p.hist| - r.covers <= TSN_RADIUS
    ensures Starved(p.(tx := HandleSack(p.tx, r.sack, now)), init)
  {
    SackCompares(p, init, r);
    if r.covers == |p.hist| {
      SackTellsWindow(p.tx, r.sack, now);
      ToldWindow(p, init, r, HandleSack(p.tx, r.sack, now));
    }
  }

  lemma {:induction false} SenderStaysStarved(p: Pair, init: u32, op: TxOp)
    requires Starved(p, init) && CanHappen(p, AtSender(op))
    ensures Starved(Do(p, AtSender(op)), init) && Do(p, AtSender(op)).hist == p.hist
  {
    OperationStaysIdle(p.tx, op);
    AppendNothing(p.hist);
    StaysStarved(p, Do(p, AtSender(op)), init);
  }

  lemma {:induction false} SameSenderStarves(p: Pair, n: Pair, init: u32)
    requires Starved(p, init) && n.tx == p.tx && n.hist == p.hist && n.sacks == p.sacks
    ensures Starved(n, init)
  {}

  lemma {:induction false} SackIsHonest(p: Pair, init: u32, r: SackRecord)
    requires Inv(p, init) && r in p.sacks
    ensures r.covers <= p.taken && r.sack.cumTsn == At(init, r.covers - 1)
  {
    assert Honest(p, init, r);
  }

  lemma {:induction false} AnySackStaysStarved(p: Pair, init: u32, r: SackRecord, now: nat)
    requires Inv(p, init) && Starved(p, init) && CanHappen(p, DeliverSack(r, now))
    ensures Starved(p.(tx := HandleSack(p.tx, r.sack, now)), init)
  {
    NothingInFlight(p, init);
    SackIsHonest(p, init, r);
    SackStaysStarved(p, init, r, now);
  }

  lemma {:induction false} NothingNewWhileIdle(p: Pair, init: u32, i: nat)
    requires Inv(p, init) && p.tx.resend == [] && CanHappen(p, DeliverData(i))
    ensures Do(p, DeliverData(i)) == p
  {
    NothingInFlight(p, init);
    L.NothingNewArrives(p, init, i);
  }

  lemma {:induction false} StarvedStep(p: Pair, init: u32, a: Action)
    requires Inv(p, init) && Starved(p, init)
    ensures Starved(Step(p, a), init) && Step(p, a).hist == p.hist
  {
    if CanHappen(p, a) {
      match a
      case AtSender(op) => SenderStaysStarved(p, init, op);
      case DeliverData(i) => NothingNewWhileIdle(p, init, i);
      case DeliverSack(r, now) => AnySackStaysStarved(p, init, r, now);
      case _ => SameSenderStarves(p, Do(p, a), init);
    }
  }

  lemma {:induction false} StarvedForever(p: Pair, init: u32, more: seq<Action>)
    requires Inv(p, init) && Starved(p, init)
    ensures Inv(RunPair(p, more), init) && Starved(RunPair(p, more), init) && RunPair(p, more).hist == p.hist
  {
    if more == [] {
    } else {
      var before, a := more[..|more| - 1], more[|more| - 1];
      StarvedForever(p, init, before);
      if CanHappen(RunPair(p, before), a) {
        InvStep(RunPair(p, before), init, a);
      }
      StarvedStep(RunPair(p, before), init, a);
    }
  }

  // ----- with enough window something new is sent -----

  /** An idle sender whose window lets the front leave now, whole or in part. */
  predicate Ready(s: TxState) {
    && s.outQueue != [] && s.resend == [] && s.inFlight == 0 && !C.InRecovery(s.window)
    && (if |s.outQueue[0].buf| > s.pmtu then s.peerWindow > 0
        else |s.outQueue[0].buf| <= s.peerWindow && |s.outQueue[0].buf| <= s.pmtu - 16)
  }

  lemma {:induction false} ReadyPolls(s: TxState)
    requires Ready(s)
    ensures |NewChunks(s, PollDataOp(s.pmtu, 0, 0))| == 1
  {
    assert Increase(s.tsnCounter) != s.tsnCounter;
  }

  /** A probe answer that makes the path MTU large enough for the front. */
  function Probe(length: nat): TxOp
    requires length + 16 < TWO32
  {
    NotifyOp(PeerHeartBeatAck(OurBeat(length + 16), 0), 0)
  }

  lemma {:induction false} ProbeMakesReady(s: TxState, length: nat)
    requires s.outQueue != [] && |s.outQueue[0].buf| == length && s.resend == [] && s.inFlight == 0
    requires !C.InRecovery(s.window) && length <= s.peerWindow && length <= s.pmtu < length + 16 < TWO32
    ensures Ready(Apply(s, Probe(length))) && NewChunks(s, Probe(length)) == []
  {}

  /** From an idle state whose own window is enough, one or two operations send something new. */
  lemma {:induction false} SendsWithWindow(p: Pair) returns (more: seq<Action>)
    requires p.tx.outQueue != [] && p.tx.resend == [] && p.tx.inFlight == 0 && !C.InRecovery(p.tx.window)
    requires Enough(|p.tx.outQueue[0].buf|, p.tx.pmtu, p.tx.peerWindow)
    ensures |RunPair(p, more).hist| > |p.hist|
  {
    var length := |p.tx.outQueue[0].buf|;
    if Ready(p.tx) {
      more := ReadySends(p);
    } else {
      ProbeMakesReady(p.tx, length);
      var n := Step(p, AtSender(Probe(length)));
      AppendNothing(p.hist);
      more := ReadySends(n);
      RunCons(p, AtSender(Probe(length)), more);
      more := [AtSender(Probe(length))] + more;
    }
  }

  lemma {:induction false} ReadySends(p: Pair) returns (more: seq<Action>)
    requires Ready(p.tx)
    ensures |RunPair(p, more).hist| > |p.hist|
  {
    more := [AtSender(PollDataOp(p.tx.pmtu, 0, 0))];
    ReadyPolls(p.tx);
    RunCons(p, more[0], []);
    AppendNothing(more);
  }

  lemma {:induction false} ReopensBySack(p: Pair, init: u32, r: SackRecord) returns (more: seq<Action>)
    requires Inv(p, init) && p.tx.outQueue != [] && Idle(p, init) && r in p.sacks && r.covers == |p.hist|
    requires Enough(|p.tx.outQueue[0].buf|, p.tx.pmtu, r.sack.aRwnd)
    ensures |RunPair(p, more).hist| > |p.hist|
  {
    NothingInFlight(p, init);
    SackIsHonest(p, init, r);
    SackTellsWindow(p.tx, r.sack, 0);
    var n := Step(p, DeliverSack(r, 0));
    assert n == p.(tx := HandleSack(p.tx, r.sack, 0));
    more := SendsWithWindow(n);
    RunCons(p, DeliverSack(r, 0), more);
    more := [DeliverSack(r, 0)] + more;
  }

  lemma {:induction false} Reopens(p: Pair, init: u32) returns (more: seq<Action>)
    requires Inv(p, init) && p.tx.outQueue != [] && Idle(p, init) && CanReopen(p)
    ensures |RunPair(p, more).hist| > |p.hist|
  {
    var length := |p.tx.outQueue[0].buf|;
    if Enough(length, p.tx.pmtu, p.tx.peerWindow) {
      NothingInFlight(p, init);
      more := SendsWithWindow(p);
    } else {
      var r :| r in p.sacks && r.covers == |p.hist| && Enough(length, p.tx.pmtu, r.sack.aRwnd);
      more := ReopensBySack(p, init, r);
    }
  }

  // ----- every run -----

  lemma {:induction false} SacksNeedData(p: Pair, actions: seq<Action>)
    requires p.sacks == {}
    ensures RunPair(p, actions).hist == [] ==> RunPair(p, actions).sacks == {}
  {
    if actions == [] {
    } else {
      SacksNeedData(p, actions[..|actions| - 1]);
      HistoryGrows(RunPair(p, actions[..|actions| - 1]), actions[|actions| - 1]);
    }
  }

  lemma {:induction false} AcknowledgedIsIdle(p: Pair, init: u32)
    requires Inv(p, init) && Recovers(p.tx) && p.tx.resend == [] && (p.hist == [] ==> p.sacks == {})
    ensures Idle(p, init)
  {}

  /** A closed window opens again exactly by luck: in every run in which everything sent was acknowledged and a message
      waits to be sent, some continuation sends something new if and only if the window that the sender knows, or
      the one in a SACK for everything sent that was written long ago, is enough for it. The receiver reports no new
      window when the application reads. */
  lemma {:induction false} ReopensExactly(settings: AssocTxSettings, inStreams: u16, limit: nat, now: nat,
                                          actions: seq<Action>)
    requires Compatible(settings, inStreams, limit)
    requires var p := RunPair(NewPair(settings, inStreams, limit, now), actions);
      p.tx.resend == [] && p.tx.outQueue != []
    ensures var p := RunPair(NewPair(settings, inStreams, limit, now), actions);
      CanReopen(p) <==> exists more :: |RunPair(p, more).hist| > |p.hist|
  {
    var p, init := RunPair(NewPair(settings, inStreams, limit, now), actions), settings.initTsn;
    InvAlways(settings, inStreams, limit, now, actions);
    NoPollPanics(settings, inStreams, limit, now, actions, 0, 0, 0);
    SacksNeedData(NewPair(settings, inStreams, limit, now), actions);
    AcknowledgedIsIdle(p, init);
    if CanReopen(p) {
      var more := Reopens(p, init);
    } else {
      forall more ensures RunPair(p, more).hist == p.hist {
        StarvedForever(p, init, more);
      }
    }
  }

  // ----- a run that ends there -----

  /** Two messages of one byte, a receive buffer of one byte: the first is sent, received, acknowledged and read. */
  function ReadFirst(first: u32): seq<Action> { F.AckFirst(first, 1, true) + [PollMessage] }

  lemma {:induction false} FirstIsRead(p: Pair, first: u32)
    requires p.rx == F.TakenRx(first, 1) && p.ordered == [] && p.unordered == []
    ensures var n := Step(p, PollMessage);
      n == p.(rx := n.rx, ordered := n.ordered) && n.rx.buffered == 0 && n.rx.shutdown.None? && |n.ordered| == 1
  {
    assert PayloadBytes([F.FirstChunk(first)]) == 1;
  }

  lemma {:induction false} ReadFirstRun(first: u32)
    requires 0 < first <= WRAP_HI
    ensures RunPair(F.Fresh(first, 1, 1), ReadFirst(first)) == Step(F.AckedPair(first, 1, 1, true), PollMessage)
  {
    LargerThanZero(first);
    F.FirstAcked(first, 1, 1, true);
    F.OneMore(F.Fresh(first, 1, 1), F.AckFirst(first, 1, true), PollMessage);
  }

  lemma {:induction false} EmptyWindowStarves(p: Pair, first: u32, tx: TxState)
    requires p == F.TakenPair(first, 1, 1, true).(tx := tx) && |tx.outQueue| == 1 && |tx.outQueue[0].buf| == 1
    requires tx.resend == [] && tx.window.phase.SlowStart? && tx.lastAcked == first && tx.peerWindow == 0
    requires tx.pmtu == 1200
    ensures Starved(p, first)
  {
    assert p.sacks == {SackRecord(F.FirstSack(first, 1), 1)} && |p.hist| == 1;
    assert At(first, 0) == first;
  }

  /** Nothing is left of the window, and the only SACK says so too. */
  lemma {:induction false} NothingLeft(first: u32)
    requires 0 < first <= WRAP_HI
    ensures var p := F.AckedPair(first, 1, 1, true);
      && Starved(p, first) && |p.tx.outQueue| == 1 && p.tx.shutdown.None? && |p.hist| == 1 && |p.accepted| == 2
  {
    LargerThanZero(first);
    F.SackEmptiesQueue(F.SentTx(first, 1, true), first, 1, 1, true);
    EmptyWindowStarves(F.AckedPair(first, 1, 1, true), first, F.AckedPair(first, 1, 1, true).tx);
  }

  /** Everything was read and both sides are open, but the second message never leaves. */
  lemma {:induction false} SecondNeverLeaves(first: u32, more: seq<Action>)
    requires 0 < first <= WRAP_HI
    ensures var p := RunPair(F.Fresh(first, 1, 1), ReadFirst(first));
      && p.rx.buffered == 0 && p.rx.shutdown.None? && p.tx.shutdown.None? && |p.accepted| == 2 && |p.ordered| == 1
      && |p.tx.outQueue| == 1 && RunPair(p, more).hist == p.hist && |p.hist| == 1
  {
    ReadFirstRun(first);
    NothingLeft(first);
    FirstIsRead(F.AckedPair(first, 1, 1, true), first);
    InvAlways(F.Settings(first, 1), 1, 1, 0, ReadFirst(first));
    SameSenderStarves(F.AckedPair(first, 1, 1, true), Step(F.AckedPair(first, 1, 1, true), PollMessage), first);
    StarvedForever(Step(F.AckedPair(first, 1, 1, true), PollMessage), first, more);
  }
}
