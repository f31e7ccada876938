/** One end of an association: what arrives at its receiver reaches its transmitter, and what the transmitter answers.
    */
module Nodes {
  import opened Basics
  import opened Chunks
  import opened Receiver
  import RA = RxAssertion
  import RT = RoundTrip
  import RxModel
  import SS = ShutdownSafety
  import opened Transmitter
  import opened TxModel

  datatype Node = Node(tx: TxState, rx: RxModel.RxState)

  /** The notifications of a receiver are given to the transmitter one after the other. */
  function Give(s: TxState, notes: seq<TxNotification>, next: nat): TxState {
    if notes == [] then s else Notify(Give(s, notes[..|notes| - 1], next), notes[|notes| - 1], next)
  }

  function Pump(n: Node, next: nat): Node { Node(Give(n.tx, n.rx.notes, next), n.rx.(notes := [])) }

  function Arrived(n: Node, c: Chunk, now: nat): Node { n.(rx := RxModel.Notified(n.rx, c, now)) }

  /** A chunk arrives, and the notifications are passed on. */
  function Handled(n: Node, c: Chunk, now: nat, next: nat): Node { Pump(Arrived(n, c, now), next) }

  /** A receiver never asks for data to be sent. */
  predicate CleanNotes(notes: seq<TxNotification>) {
    forall i :: 0 <= i < |notes| ==> !(notes[i].Send? && notes[i].chunk.Data?)
  }

  lemma {:induction false} GiveOne(s: TxState, note: TxNotification, next: nat)
    ensures Give(s, [note], next) == Notify(s, note, next)
  {
    assert [note][..0] == [];
  }

  // ----- the objects -----

  /** The receiver panics, or one of its notifications is a heartbeat answer that the transmitter cannot read. */
  ghost predicate Panics(r: RxModel.RxState, c: Chunk, now: nat) {
    || !RxModel.IsImplemented(c) || !RA.LeavesNoUnordered(r, c)
    || exists note :: note in RxModel.Notified(r, c, now).notes && IsShortBeat(note)
  }

  /** Hands the notifications to the transmitter, in order; stops at a panic. */
  method PassNotes(notes: seq<TxNotification>, tx: AssociationTx, next: nat) returns (panicked: bool)
    requires tx.Valid() && CleanNotes(notes)
    modifies tx, tx.primaryCongestion, tx.srtt
    ensures panicked <==> exists note :: note in notes && IsShortBeat(note)
    ensures !panicked ==> tx.State() == Give(old(tx.State()), notes, next)
  {
    for i := 0 to |notes|
      invariant tx.Valid() && tx.State() == Give(old(tx.State()), notes[..i], next)
      invariant forall j :: 0 <= j < i ==> !IsShortBeat(notes[j])
    {
      assert notes[..i + 1][..i] == notes[..i];
      panicked := tx.Notification(notes[i], next);
      if panicked {
        return;
      }
    }
    assert notes[..|notes|] == notes;
    panicked := false;
  }

  /** What the event loop does with an arriving chunk: the receiver handles it, and its notifications are handed to the
      transmitter. */
  method DeliverChunk(rx: AssociationRx, tx: AssociationTx, chunk: Chunk, now: nat, next: nat) returns (panicked: bool)
    requires rx.Valid() && tx.Valid() && CleanNotes(rx.txNotifications)
    modifies rx, tx, tx.primaryCongestion, tx.srtt
    ensures panicked <==> old(Panics(rx.State(), chunk, now))
    ensures !panicked ==> Node(tx.State(), rx.State()) == old(Handled(Node(tx.State(), rx.State()), chunk, now, next))
  {
    ArrivalKeepsClean(rx.State(), chunk, now);
    panicked := rx.Notification(chunk, now);
    if !panicked {
      var notes := rx.TakeNotifications();
      panicked := PassNotes(notes, tx, next);
    }
  }

  /** An arrival adds no request to send data. */
  lemma {:induction false} ArrivalKeepsClean(r: RxModel.RxState, c: Chunk, now: nat)
    requires CleanNotes(r.notes)
    ensures CleanNotes(RxModel.Notified(r, c, now).notes)
  {
    if c.Data? {
      RxModel.DataFrame(r, c.data);
    }
  }

  // ----- what arrives -----

  /** An arriving SACK reaches the transmitter, and only that. */
  lemma {:induction false} SackIsPassedOn(n: Node, sack: SelectiveAck, now: nat, next: nat)
    requires n.rx.notes == []
    ensures Handled(n, SAck(sack), now, next) == n.(tx := HandleSack(n.tx, sack, now))
  {
    AppendNothing([PeerSAck(sack, now)]);
    GiveOne(n.tx, PeerSAck(sack, now), next);
  }

  /** The next signal that leaves, if there is room for it. */
  predicate SignalIs(n: Node, limit: nat, now: nat, result: PollResult<Chunk>) {
    PollSignal(n.tx, limit, 0, now).1 == result
  }

  /** Nothing waits to be passed on or to be signalled. */
  predicate NothingPending(n: Node) { n.rx.notes == [] && n.tx.sendNext == [] }

  predicate IsIdle(n: Node) { NothingPending(n) && SS.Quiet(n.tx) }

  /** An arriving heartbeat comes back with the next signal. */
  lemma {:induction false} HeartbeatIsAnswered(n: Node, beat: HeartBeat, now: nat, next: nat, limit: nat)
    requires NothingPending(n) && SerializedSize(HeartBeatAckChunk(beat)) <= Min(limit, n.tx.pmtu)
    ensures SignalIs(Handled(n, HeartBeatChunk(beat), now, next), limit, now, Polled(HeartBeatAckChunk(beat)))
  {
    AppendNothing([Send(HeartBeatAckChunk(beat))]);
    GiveOne(n.tx, Send(HeartBeatAckChunk(beat)), next);
  }

  /** An answer to one of our own probes widens the path, and any answer clears the count of unanswered ones. */
  lemma {:induction false} AnswerWidensPath(n: Node, probe: u32, now: nat, next: nat)
    requires n.rx.notes == []
    ensures var t := Handled(n, HeartBeatAckChunk(OurBeat(probe)), now, next).tx;
      t.pmtu == Max(n.tx.pmtu, probe) && t.window.pmcds == t.pmtu - 12 && t.heartbeatsUnacked == 0
  {
    AppendNothing([PeerHeartBeatAck(OurBeat(probe), now)]);
    GiveOne(n.tx, PeerHeartBeatAck(OurBeat(probe), now), next);
  }

  /** Both halves are closed: nothing can be sent or fetched any more, and there is nothing left to signal. */
  ghost predicate Over(n: Node, limit: nat, now: nat) {
    && SignalIs(n, limit, now, Ended) && RxModel.PollData(n.rx).1 == RxModel.Closed
    && forall data, stream, ppid, immediate, unordered ::
      TrySend(n.tx, data, stream, ppid, immediate, unordered) == (n.tx, Some(SendClosed))
  }

  lemma {:induction false} ClosedIsOver(n: Node, limit: nat, now: nat)
    requires n.tx.sendNext == [] && n.rx.shutdown.Some?
    requires n.tx.shutdown == Some(AbortReceived) || n.tx.shutdown == Some(Complete)
    ensures Over(n, limit, now)
  {}

  /** An ABORT closes both halves at once, whatever is still queued. */
  lemma {:induction false} AbortCloses(n: Node, reflected: bool, causes: Bytes, now: nat, next: nat, limit: nat)
    requires NothingPending(n)
    ensures Over(Handled(n, Abort(reflected, causes), now, next), limit, now)
  {
    AppendNothing([PeerAbort]);
    GiveOne(n.tx, PeerAbort, next);
    ClosedIsOver(Handled(n, Abort(reflected, causes), now, next), limit, now);
  }

  /** An arriving chunk that is acknowledged is acknowledged with the next signal; a sender that waits for its own
      SHUTDOWN to be answered repeats that first. */
  lemma {:induction false} DataIsAcknowledged(n: Node, d: DataChunk, now: nat, next: nat, limit: nat)
    requires NothingPending(n) && RxModel.HandleData(n.rx, d).notes != [] && n.tx.shutdown != Some(ShutdownSent)
    requires var sack := RxModel.MakeSack(RxModel.HandleData(n.rx, d));
      SerializedSize(SAck(sack)) <= Min(limit, n.tx.pmtu)
    ensures SignalIs(Handled(n, Data(d), now, next), limit, now,
                     Polled(SAck(RxModel.MakeSack(RxModel.HandleData(n.rx, d)))))
  {
    var r := RxModel.HandleData(n.rx, d);
    RxModel.DataFrame(n.rx, d);
    AppendNothing([Send(SAck(RxModel.MakeSack(r)))]);
    GiveOne(n.tx, Send(SAck(RxModel.MakeSack(r))), next);
    AppendNothing([SAck(RxModel.MakeSack(r))]);
  }

  /** A sender whose SHUTDOWN was not answered yet repeats it before every SACK, with the new cumulative TSN. */
  lemma {:induction false} ShutdownComesWithSack(n: Node, sack: SelectiveAck, next: nat)
    requires n.tx.sendNext == [] && n.tx.shutdown == Some(ShutdownSent)
    ensures Notify(n.tx, Send(SAck(sack)), next).sendNext == [ShutDown(sack.cumTsn), SAck(sack)]
  {}

  /** When its timer runs out and the path probing has a size to try, a probe of that size is queued and the timer is
      set for the time that the probing asks for; without one, another probe counts as unanswered. */
  lemma {:induction false} ProbeIsSent(s: TxState, plan: ProbePlan)
    ensures var t := HeartbeatTimeout(s, plan);
      && t.sendNext == s.sendNext + (if plan.probe.Some? then [HeartBeatChunk(OurBeat(plan.probe.value))] else [])
      && t.heartbeatsUnacked == s.heartbeatsUnacked + (if plan.probe.Some? then 0 else 1)
      && t.heartbeatTimer.Some? && t.heartbeatTimer.value.at == plan.next
  {
    AppendNothing(s.sendNext);
  }

  // ----- how an association ends -----

  function Polls(n: Node, limit: nat, now: nat): Node { n.(tx := PollSignal(n.tx, limit, 0, now).0) }

  /** The steps of the exchange, each from the state that the one before leaves. */
  lemma {:induction false} ShutdownStarts(a: Node, limit: nat, now: nat)
    requires IsIdle(a)
    ensures var closing := a.(tx := InitiateShutdown(a.tx));
      && SignalIs(closing, limit, now, Polled(ShutDown(a.tx.peerLastAcked)))
      && IsIdle(Polls(closing, limit, now)) && Polls(closing, limit, now).tx.shutdown == Some(ShutdownSent)
      && Polls(closing, limit, now).rx == a.rx
  {}

  lemma {:induction false} ShutdownIsAcknowledged(b: Node, tsn: u32, limit: nat, now: nat, next: nat)
    requires IsIdle(b) && b.tx.shutdown.None?
    ensures var n := Handled(b, ShutDown(tsn), now, next);
      && SignalIs(n, limit, now, Polled(ShutDownAck)) && IsIdle(Polls(n, limit, now))
      && Polls(n, limit, now).tx.shutdown == Some(ShutdownAckSent) && RxModel.PollData(n.rx).1 == RxModel.Closed
      && Polls(n, limit, now).rx == n.rx
  {
    AppendNothing([PeerShutdown]);
    GiveOne(b.tx, PeerShutdown, next);
  }

  lemma {:induction false} AckIsCompleted(a: Node, limit: nat, now: nat, next: nat)
    requires IsIdle(a) && limit >= 4
    ensures var n := Handled(a, ShutDownAck, now, next);
      SignalIs(n, limit, now, Polled(ShutDownComplete(false))) && Over(Polls(n, limit, now), limit, now)
  {
    AppendNothing([PeerShutdownAck]);
    GiveOne(a.tx, PeerShutdownAck, next);
    AppendNothing([ShutDownComplete(false)]);
    ClosedIsOver(Polls(Handled(a, ShutDownAck, now, next), limit, now), limit, now);
  }

  lemma {:induction false} CompleteCloses(b: Node, limit: nat, now: nat, next: nat)
    requires IsIdle(b)
    ensures Over(Handled(b, ShutDownComplete(false), now, next), limit, now)
  {
    AppendNothing([PeerShutdownComplete]);
    GiveOne(b.tx, PeerShutdownComplete, next);
    ClosedIsOver(Handled(b, ShutDownComplete(false), now, next), limit, now);
  }

  /** Two idle ends, one of which shuts down: SHUTDOWN, SHUTDOWN ACK and SHUTDOWN COMPLETE leave in turn, and after them
      both ends are closed in both directions. */
  lemma {:induction false} ShutdownExchange(a: Node, b: Node, limit: nat, now: nat, next: nat)
    requires IsIdle(a) && IsIdle(b) && b.tx.shutdown.None? && limit >= 4
    ensures var a1 := a.(tx := InitiateShutdown(a.tx));
      var b1 := Handled(b, ShutDown(a.tx.peerLastAcked), now, next);
      var a2 := Handled(Polls(a1, limit, now), ShutDownAck, now, next);
      var b2 := Handled(Polls(b1, limit, now), ShutDownComplete(false), now, next);
      && SignalIs(a1, limit, now, Polled(ShutDown(a.tx.peerLastAcked)))
      && SignalIs(b1, limit, now, Polled(ShutDownAck))
      && SignalIs(a2, limit, now, Polled(ShutDownComplete(false)))
      && Over(Polls(a2, limit, now), limit, now) && Over(b2, limit, now)
  {
    ShutdownStarts(a, limit, now);
    ShutdownIsAcknowledged(b, a.tx.peerLastAcked, limit, now, next);
    AckIsCompleted(Polls(a.(tx := InitiateShutdown(a.tx)), limit, now), limit, now, next);
    CompleteCloses(Polls(Handled(b, ShutDown(a.tx.peerLastAcked), now, next), limit, now), limit, now, next);
  }

  lemma {:induction false} CrossingIsAcknowledged(n: Node, tsn: u32, limit: nat, now: nat, next: nat)
    requires IsIdle(n) && n.tx.shutdown == Some(ShutdownSent) && limit >= 4
    ensures var m := Handled(n, ShutDown(tsn), now, next);
      && SignalIs(m, limit, now, Polled(ShutDownAck)) && IsIdle(Polls(m, limit, now))
  {
    AppendNothing([PeerShutdown]);
    GiveOne(n.tx, PeerShutdown, next);
    AppendNothing([ShutDownAck]);
  }

  /** Both ends shut down at the same time: their SHUTDOWNs cross, both answer with SHUTDOWN ACK, and both are closed.
      */
  lemma {:induction false} CrossingShutdowns(a: Node, b: Node, limit: nat, now: nat, next: nat)
    requires IsIdle(a) && IsIdle(b) && limit >= 4
    ensures var a1, b1 := Polls(a.(tx := InitiateShutdown(a.tx)), limit, now),
                          Polls(b.(tx := InitiateShutdown(b.tx)), limit, now);
      var a2, b2 := Handled(a1, ShutDown(b.tx.peerLastAcked), now, next),
                    Handled(b1, ShutDown(a.tx.peerLastAcked), now, next);
      var a3, b3 := Handled(Polls(a2, limit, now), ShutDownAck, now, next),
                    Handled(Polls(b2, limit, now), ShutDownAck, now, next);
      && SignalIs(a2, limit, now, Polled(ShutDownAck)) && SignalIs(b2, limit, now, Polled(ShutDownAck))
      && Over(Polls(a3, limit, now), limit, now) && Over(Polls(b3, limit, now), limit, now)
  {
    ShutdownStarts(a, limit, now);
    ShutdownStarts(b, limit, now);
    var a1 := Polls(a.(tx := InitiateShutdown(a.tx)), limit, now);
    var b1 := Polls(b.(tx := InitiateShutdown(b.tx)), limit, now);
    CrossingIsAcknowledged(a1, b.tx.peerLastAcked, limit, now, next);
    CrossingIsAcknowledged(b1, a.tx.peerLastAcked, limit, now, next);
    AckIsCompleted(Polls(Handled(a1, ShutDown(b.tx.peerLastAcked), now, next), limit, now), limit, now, next);
    AckIsCompleted(Polls(Handled(b1, ShutDown(a.tx.peerLastAcked), now, next), limit, now), limit, now, next);
  }

  lemma {:induction false} ShutdownTimerRunsOut(s: TxState, plan: ProbePlan)
    requires SS.Quiet(s) && s.sendNext == [] && s.shutdownTimer.Some?
    requires s.shutdown == Some(ShutdownSent) || s.shutdown == Some(ShutdownAckSent)
    ensures var t := HandleTimeout(s, s.shutdownTimer.value, plan);
      && t.sendNext != []
      && t.sendNext[0] == (if s.shutdown.value.ShutdownSent? then ShutDown(s.peerLastAcked) else ShutDownAck)
      && t.shutdown == s.shutdown && t.shutdownTimer.Some? && t.pmtu == s.pmtu
      && t.shutdownTimer.value.at == s.shutdownTimer.value.at + RT.Duration(s.rtt)
  {}

  /** A shutdown signal that gets lost is repeated whenever its timer runs out, and the timer runs again. */
  lemma {:induction false} SignalIsRepeated(s: TxState, plan: ProbePlan, limit: nat, now: nat)
    requires SS.Quiet(s) && s.sendNext == [] && s.shutdownTimer.Some? && 8 <= Min(limit, s.pmtu)
    requires s.shutdown == Some(ShutdownSent) || s.shutdown == Some(ShutdownAckSent)
    ensures var t := HandleTimeout(s, s.shutdownTimer.value, plan);
      && PollSignal(t, limit, 0, now).1
         == Polled(if s.shutdown.value.ShutdownSent? then ShutDown(s.peerLastAcked) else ShutDownAck)
      && t.shutdown == s.shutdown && t.shutdownTimer.Some?
      && t.shutdownTimer.value.at == s.shutdownTimer.value.at + RT.Duration(s.rtt)
  {
    ShutdownTimerRunsOut(s, plan);
  }
}
