/** The runtime assertion of the receiver, which leaves out the unordered messages: when it holds. */
module RxAssertion {
  import opened Association
  import opened AssociationSafety
  import opened Basics
  import opened Chunks
  import opened Messages
  import RT = RxTracking
  import opened RxConservation
  import opened RxModel
  import opened SerialNumber
  import TxModel

  // ----- before the call -----

  /** The chunks of the reorder buffer that follow `tsn` without a gap; those of unknown streams are dropped. */
  function Released(r: RxState, tsn: u32, reorder: seq<DataChunk>): (cs: seq<DataChunk>)
    ensures forall i :: 0 <= i < |cs| ==> KnownStream(r, cs[i])
    decreases |reorder|
  {
    if reorder == [] || reorder[0].tsn != Increase(tsn) then []
    else if KnownStream(r, reorder[0]) then [reorder[0]] + Released(r, reorder[0].tsn, reorder[1..])
    else Released(r, tsn, reorder[1..])
  }

  /** The chunks that a notification makes the receiver take in order. */
  function TakenBy(r: RxState, c: Chunk): (cs: seq<DataChunk>)
    ensures forall i :: 0 <= i < |cs| ==> KnownStream(r, cs[i])
  {
    if c.Data? && c.data.tsn == Increase(r.tsnCounter) && KnownStream(r, c.data) && Fits(r, c.data)
    then [c.data] + Released(r, c.data.tsn, r.reorder)
    else []
  }

  /** What is stored for a stream after a chunk of it was taken. */
  function Stored(q: Reassembly, d: DataChunk): Reassembly {
    if d.end then q - {d.seqNum} else q[d.seqNum := Pieces(q, d)]
  }

  /** The bytes of the unordered messages that the chunks complete, taken one after the other. */
  function UnorderedBytes(streams: seq<Reassembly>, cs: seq<DataChunk>): nat
    requires forall i :: 0 <= i < |cs| ==> cs[i].streamId < |streams|
    decreases |cs|
  {
    if cs == [] then 0
    else
      var d := cs[0];
      var q := streams[d.streamId];
      (if d.end && d.unordered then PayloadBytes(Pieces(q, d)) else 0)
      + UnorderedBytes(streams[d.streamId := Stored(q, d)], cs[1..])
  }

  /** No unordered payload waits, and the notification completes no unordered message with payload. */
  predicate LeavesNoUnordered(r: RxState, c: Chunk) {
    EventsBytes(r.unordered) == 0 && UnorderedBytes(r.streams, TakenBy(r, c)) == 0
  }

  /** The equation that the original asserts after every notification. */
  predicate AssertionHolds(r: RxState) { r.buffered == AssertedBytes(r) }

  // ----- what the call adds -----

  lemma {:induction false} AcceptUnordered(r: RxState, d: DataChunk)
    requires KnownStream(r, d)
    ensures var a, q := Accept(r, d), r.streams[d.streamId];
      && a.streams == r.streams[d.streamId := Stored(q, d)]
      && EventsBytes(a.unordered)
         == EventsBytes(r.unordered) + (if d.end && d.unordered then PayloadBytes(Pieces(q, d)) else 0)
  {
    EventsBytesSnoc(r.unordered, Event(d.streamId, d.ppid, d.unordered, Pieces(r.streams[d.streamId], d)));
  }

  lemma {:induction false} ReleasedSame(r: RxState, a: RxState, tsn: u32, reorder: seq<DataChunk>)
    requires |a.streams| == |r.streams|
    ensures Released(a, tsn, reorder) == Released(r, tsn, reorder)
    decreases |reorder|
  {
    if reorder == [] || reorder[0].tsn != Increase(tsn) {
    } else if KnownStream(r, reorder[0]) {
      ReleasedSame(r, a, reorder[0].tsn, reorder[1..]);
    } else {
      ReleasedSame(r, a, tsn, reorder[1..]);
    }
  }

  lemma {:induction false} DrainUnordered(r: RxState)
    requires Conserved(r)
    ensures EventsBytes(Drain(r).unordered)
         == EventsBytes(r.unordered) + UnorderedBytes(r.streams, Released(r, r.tsnCounter, r.reorder))
    decreases |r.reorder|
  {
    if !NextIsBuffered(r) {
    } else {
      var d, popped := r.reorder[0], PopFirst(r);
      PayloadBytesHead(r.reorder);
      assert Conserved(popped);
      if KnownStream(r, d) {
        AcceptHolds(popped, d);
        AcceptUnordered(popped, d);
        DrainUnordered(Accept(popped, d));
        ReleasedSame(r, Accept(popped, d), d.tsn, r.reorder[1..]);
      } else {
        DrainUnordered(popped);
        ReleasedSame(r, popped, r.tsnCounter, r.reorder[1..]);
      }
    }
  }

  lemma {:induction false} ArrivalUnordered(r: RxState, d: DataChunk)
    requires Conserved(r)
    ensures EventsBytes(HandleData(r, d).unordered)
         == EventsBytes(r.unordered) + UnorderedBytes(r.streams, TakenBy(r, Data(d)))
  {
    if d.tsn == Increase(r.tsnCounter) && KnownStream(r, d) && Fits(r, d) {
      var a := Accept(r, d);
      AcceptHolds(r, d);
      AcceptUnordered(r, d);
      DrainUnordered(a);
      ReleasedSame(r, a, d.tsn, r.reorder);
    }
  }

  /** For every state in which the bytes are conserved and every chunk: the assertion passes after the notification
      exactly if no unordered payload waits before it and the notification completes none. */
  lemma {:induction false} AssertionPassesExactly(r: RxState, c: Chunk, now: nat)
    requires Conserved(r)
    ensures AssertionHolds(Notified(r, c, now)) <==> LeavesNoUnordered(r, c)
  {
    OperationConserves(r, Arrive(c, now));
    if c.Data? {
      ArrivalUnordered(r, c.data);
    }
  }

  // ----- whole runs of a sender and a receiver -----

  lemma {:induction false} PayloadLength(cs: seq<DataChunk>)
    ensures |Payload(cs)| == PayloadBytes(cs)
  {
    if cs == [] {
    } else {
      PayloadLength(cs[..|cs| - 1]);
    }
  }

  predicate NoPayload(ms: seq<Message>) { forall i :: 0 <= i < |ms| ==> ms[i].payload == [] }

  lemma {:induction false} EventsWithoutPayload(es: seq<Event>)
    requires NoPayload(RT.MessagesOf(es))
    ensures EventsBytes(es) == 0
  {
    if es == [] {
    } else {
      PayloadLength(es[0].data);
      assert RT.MessagesOf(es)[0].payload == Payload(es[0].data);
      assert RT.MessagesOf(es)[1..] == RT.MessagesOf(es[1..]);
      EventsWithoutPayload(es[1..]);
    }
  }

  lemma {:induction false} WaitingIsSelected(p: Pair)
    requires p.taken <= |p.hist| && RT.Delivers(p.rx, p.hist, p.taken, p.ordered, p.unordered) && CarriesMessages(p)
    requires NoPayload(Select(p.accepted, true))
    ensures EventsBytes(p.rx.unordered) == 0
  {
    TakenIsPrefix(p.hist, p.taken, p.tx.outQueue);
    SelectedPrefix(Completed(p.hist[..p.taken]), p.accepted, true);
    var waiting, all := RT.MessagesOf(p.rx.unordered), Select(p.accepted, true);
    forall i | 0 <= i < |waiting| ensures waiting[i].payload == [] {
      assert waiting[i] == (p.unordered + waiting)[|p.unordered| + i] == all[|p.unordered| + i];
    }
    EventsWithoutPayload(p.rx.unordered);
  }

  lemma {:induction false} InvMeansAssertion(p: Pair, init: u32)
    requires Inv(p, init) && NoPayload(Select(p.accepted, true))
    ensures AssertionHolds(p.rx)
  {
    WaitingIsSelected(p);
  }

  /** In every run in which the sender accepted no unordered message with payload, the assertion never fails. */
  lemma {:induction false} AssertionNeverFails(settings: TxModel.AssocTxSettings, inStreams: u16, limit: nat, now: nat,
                                               actions: seq<Action>)
    requires Compatible(settings, inStreams, limit)
    requires NoPayload(Select(RunPair(NewPair(settings, inStreams, limit, now), actions).accepted, true))
    ensures AssertionHolds(RunPair(NewPair(settings, inStreams, limit, now), actions).rx)
  {
    InvAlways(settings, inStreams, limit, now, actions);
    InvMeansAssertion(RunPair(NewPair(settings, inStreams, limit, now), actions), settings.initTsn);
  }
}
