/** Byte accounting of the receiver: the counter is the sum over all four stores, in every run. */
module RxConservation {
  import opened Basics
  import opened Chunks
  import opened RxModel
  import SN = SerialNumber

  function EntryBytes(q: Reassembly, k: int): nat {
    if k in q then PayloadBytes(q[k]) else 0
  }

  /** Bytes of the fragments whose sequence number is below `n`. */
  function BytesBelow(q: Reassembly, n: nat): nat {
    if n == 0 then 0 else BytesBelow(q, n - 1) + EntryBytes(q, n - 1)
  }

  function ReassemblyBytes(q: Reassembly): nat { BytesBelow(q, TWO16) }

  function StreamsBytes(streams: seq<Reassembly>): nat {
    if streams == [] then 0
    else StreamsBytes(streams[..|streams| - 1]) + ReassemblyBytes(streams[|streams| - 1])
  }

  function EventsBytes(es: seq<Event>): nat {
    if es == [] then 0 else PayloadBytes(es[0].data) + EventsBytes(es[1..])
  }

  /** All the payload a receiver holds. */
  function Held(r: RxState): nat {
    PayloadBytes(r.reorder) + StreamsBytes(r.streams) + EventsBytes(r.ordered) + EventsBytes(r.unordered)
  }

  ghost predicate Conserved(r: RxState) { r.buffered == Held(r) && r.buffered <= r.limit }

  lemma {:induction false} BytesBelowUpdate(q: Reassembly, p: Reassembly, k: u16, n: nat)
    requires forall j: u16 :: j != k ==> (j in q <==> j in p) && (j in q ==> q[j] == p[j])
    ensures BytesBelow(p, n) - BytesBelow(q, n) == if k < n then EntryBytes(p, k) - EntryBytes(q, k) else 0
  {
    if n == 0 {
    } else {
      BytesBelowUpdate(q, p, k, n - 1);
      if n - 1 != k {
        if n - 1 < TWO16 {
          var j: u16 := n - 1;
          assert j != k;
        }
      }
    }
  }

  lemma {:induction false} StreamsBytesUpdate(streams: seq<Reassembly>, i: nat, q: Reassembly)
    requires i < |streams|
    ensures StreamsBytes(streams[i := q]) - StreamsBytes(streams) == ReassemblyBytes(q) - ReassemblyBytes(streams[i])
  {
    var n := |streams| - 1;
    if i < n {
      assert streams[i := q][..n] == streams[..n][i := q];
      StreamsBytesUpdate(streams[..n], i, q);
    } else {
      assert streams[i := q][..n] == streams[..n];
    }
  }

  lemma {:induction false} EventsBytesSnoc(es: seq<Event>, e: Event)
    ensures EventsBytes(es + [e]) == EventsBytes(es) + PayloadBytes(e.data)
  {
    if es == [] {
      assert es + [e] == [e];
    } else {
      assert (es + [e])[1..] == es[1..] + [e];
      EventsBytesSnoc(es[1..], e);
    }
  }

  lemma {:induction false} AcceptHolds(r: RxState, d: DataChunk)
    requires KnownStream(r, d)
    ensures Held(Accept(r, d)) == Held(r) + |d.buf|
  {
    var q := r.streams[d.streamId];
    var pieces := Pieces(q, d);
    PayloadBytesConcat(if d.seqNum in q then q[d.seqNum] else [], [d]);
    var p := if d.end then q - {d.seqNum} else q[d.seqNum := pieces];
    BytesBelowUpdate(q, p, d.seqNum, TWO16);
    StreamsBytesUpdate(r.streams, d.streamId, p);
    var event := Event(d.streamId, d.ppid, d.unordered, pieces);
    EventsBytesSnoc(r.ordered, event);
    EventsBytesSnoc(r.unordered, event);
  }

  lemma {:induction false} AcceptConserves(r: RxState, d: DataChunk)
    requires Conserved(r) && KnownStream(r, d) && Fits(r, d)
    ensures Conserved(Accept(r, d))
  {
    AcceptHolds(r, d);
  }

  /** The room check of the nested drain never fails on a conserved state: nothing on a known stream is lost. */
  lemma {:induction false} DrainConserves(r: RxState)
    requires Conserved(r)
    ensures Conserved(Drain(r))
    ensures (forall k :: 0 <= k < |r.reorder| ==> KnownStream(r, r.reorder[k])) ==> Drain(r).buffered == r.buffered
    decreases |r.reorder|
  {
    if !NextIsBuffered(r) {
    } else {
      var d, popped := r.reorder[0], PopFirst(r);
      PayloadBytesHead(r.reorder);
      assert Conserved(popped);
      if KnownStream(popped, d) {
        AcceptHolds(popped, d);
      }
      DrainConserves(TakeOne(popped, d).0);
    }
  }

  lemma {:induction false} InsertHolds(reorder: seq<DataChunk>, d: DataChunk)
    ensures PayloadBytes(Insert(reorder, d)) == PayloadBytes(reorder) + |d.buf|
    decreases |reorder|
  {
    PayloadBytesConcat([d], reorder);
    if !(reorder == [] || SN.TsnCompare(d.tsn, reorder[0].tsn) == SN.Less) {
      InsertHolds(reorder[1..], d);
      PayloadBytesHead(reorder);
      PayloadBytesConcat([reorder[0]], Insert(reorder[1..], d));
    }
  }

  lemma {:induction false} HandleDataConserves(r: RxState, d: DataChunk)
    requires Conserved(r)
    ensures Conserved(HandleData(r, d))
  {
    InsertHolds(r.reorder, d);
    if KnownStream(r, d) && Fits(r, d) {
      AcceptHolds(r, d);
      DrainConserves(Accept(r, d));
    }
  }

  lemma {:induction false} PollConserves(r: RxState)
    requires Conserved(r)
    ensures Conserved(PollData(r).0)
  {}

  // ----- whole runs -----

  /** What can happen to a receiver: any chunk arrives, the application polls, the notifications are taken. */
  datatype RxOp = Arrive(chunk: Chunk, now: nat) | Poll | TakeNotes

  function ApplyRx(r: RxState, op: RxOp): RxState {
    match op
    case Arrive(chunk, now) => Notified(r, chunk, now)
    case Poll => PollData(r).0
    case TakeNotes => r.(notes := [])
  }

  function RunRx(r: RxState, ops: seq<RxOp>): RxState {
    if ops == [] then r else ApplyRx(RunRx(r, ops[..|ops| - 1]), ops[|ops| - 1])
  }

  lemma {:induction false} EmptyStreams(n: nat)
    ensures StreamsBytes(seq(n, _ => map[])) == 0
  {
    var s: seq<Reassembly> := seq(n, _ => map[]);
    if n == 0 {
    } else {
      var t: seq<Reassembly> := seq(n - 1, _ => map[]);
      assert s[..n - 1] == t;
      EmptyStreams(n - 1);
      assert s[n - 1] == map[];
      EmptyReassembly(TWO16);
    }
  }

  lemma {:induction false} EmptyReassembly(n: nat)
    ensures BytesBelow(map[], n) == 0
  {
    if n == 0 {
    } else {
      EmptyReassembly(n - 1);
    }
  }

  lemma {:induction false} ControlConserves(r: RxState, c: Chunk, now: nat)
    requires Conserved(r) && !c.Data?
    ensures Conserved(HandleControl(r, c, now))
  {}

  lemma {:induction false} OperationConserves(r: RxState, op: RxOp)
    requires Conserved(r)
    ensures Conserved(ApplyRx(r, op))
  {
    match op
    case Arrive(chunk, now) =>
      if chunk.Data? {
        HandleDataConserves(r, chunk.data);
      } else {
        ControlConserves(r, chunk, now);
      }
    case Poll => PollConserves(r);
    case TakeNotes =>
  }

  lemma {:induction false} NewConserves(initTsn: u32, inStreams: u16, limit: nat)
    ensures Conserved(NewRx(initTsn, inStreams, limit))
  {
    EmptyStreams(inStreams);
  }

  /** Over every sequence of arrivals (in any order, valid or not), polls and hand-overs, the counter
      equals the bytes held and stays within the limit. */
  lemma {:induction false} ReceiverConservesBytes(initTsn: u32, inStreams: u16, limit: nat, ops: seq<RxOp>)
    ensures Conserved(RunRx(NewRx(initTsn, inStreams, limit), ops))
  {
    if ops == [] {
      NewConserves(initTsn, inStreams, limit);
    } else {
      ReceiverConservesBytes(initTsn, inStreams, limit, ops[..|ops| - 1]);
      OperationConserves(RunRx(NewRx(initTsn, inStreams, limit), ops[..|ops| - 1]), ops[|ops| - 1]);
    }
  }

  /** In every run, the window in the next SACK is exactly what is left of the receive buffer beside everything that is
      held for the application. */
  lemma {:induction false} SackTellsRoom(initTsn: u32, inStreams: u16, limit: nat, ops: seq<RxOp>)
    requires limit < TWO32
    ensures var r := RunRx(NewRx(initTsn, inStreams, limit), ops);
      r.limit == limit && MakeSack(r).cumTsn == r.tsnCounter && MakeSack(r).aRwnd == limit - Held(r)
  {
    ReceiverConservesBytes(initTsn, inStreams, limit, ops);
    LimitStays(initTsn, inStreams, limit, ops);
  }

  lemma {:induction false} LimitStays(initTsn: u32, inStreams: u16, limit: nat, ops: seq<RxOp>)
    ensures RunRx(NewRx(initTsn, inStreams, limit), ops).limit == limit
  {
    if ops == [] {
    } else {
      LimitStays(initTsn, inStreams, limit, ops[..|ops| - 1]);
      LimitStep(RunRx(NewRx(initTsn, inStreams, limit), ops[..|ops| - 1]), ops[|ops| - 1]);
    }
  }

  lemma {:induction false} LimitStep(r: RxState, op: RxOp)
    ensures ApplyRx(r, op).limit == r.limit
  {
    if op.Arrive? && op.chunk.Data? {
      DataFrame(r, op.chunk.data);
    }
  }

  // ----- a stream that the receiver does not know -----

  /** If a chunk with the next TSN arrives, it is on a stream that does not exist. */
  predicate NextIsUnknown(r: RxState, op: RxOp) {
    op.Arrive? && op.chunk.Data? && op.chunk.data.tsn == SN.Increase(r.tsnCounter) ==>
      op.chunk.data.streamId >= |r.streams|
  }

  predicate OnlyUnknown(r: RxState, ops: seq<RxOp>) { forall i :: 0 <= i < |ops| ==> NextIsUnknown(r, ops[i]) }

  lemma {:induction false} UnknownStep(r: RxState, op: RxOp)
    requires NextIsUnknown(r, op)
    ensures ApplyRx(r, op).tsnCounter == r.tsnCounter && |ApplyRx(r, op).streams| == |r.streams|
  {}

  /** A chunk on an unknown stream is dropped and never taken in order, so the receiver stays where it is for good. */
  lemma {:induction false} UnknownStreamStalls(r: RxState, ops: seq<RxOp>)
    requires OnlyUnknown(r, ops)
    ensures RunRx(r, ops).tsnCounter == r.tsnCounter && |RunRx(r, ops).streams| == |r.streams|
  {
    if ops == [] {
    } else {
      var before := ops[..|ops| - 1];
      UnknownStreamStalls(r, before);
      assert NextIsUnknown(r, ops[|ops| - 1]);
      UnknownStep(RunRx(r, before), ops[|ops| - 1]);
    }
  }

  // ----- the order of the hand-over -----

  /** What `n` polls hand over. */
  function Fetched(r: RxState, n: nat): seq<Event>
    decreases n
  {
    if n == 0 then []
    else
      var (next, result) := PollData(r);
      if result.Received? then [result.event] + Fetched(next, n - 1) else []
  }

  lemma {:induction false} FirstAndOthers(es: seq<Event>, n: nat)
    requires es != [] && n > 0
    ensures es[..Min(n, |es|)] == [es[0]] + es[1..][..Min(n - 1, |es[1..]|)]
  {}

  lemma {:induction false} FirstIsFetched(r: RxState, n: nat)
    requires r.shutdown.None? && r.unordered + r.ordered != [] && n > 0
    ensures var next, waiting := PollData(r).0, r.unordered + r.ordered;
      && Fetched(r, n) == [waiting[0]] + Fetched(next, n - 1)
      && next.shutdown.None? && next.unordered + next.ordered == waiting[1..]
  {}

  /** Polls hand over what waits, each message once: the unordered ones first, then the ordered ones, both in the order
      in which they were completed. */
  lemma {:induction false} UnorderedComeFirst(r: RxState, n: nat)
    requires r.shutdown.None?
    ensures var waiting := r.unordered + r.ordered; Fetched(r, n) == waiting[..Min(n, |waiting|)]
    decreases n
  {
    if n == 0 || r.unordered + r.ordered == [] {
    } else {
      FirstIsFetched(r, n);
      UnorderedComeFirst(PollData(r).0, n - 1);
      FirstAndOthers(r.unordered + r.ordered, n);
    }
  }

  // ----- the runtime assertion -----

  /** The sum the original compares the counter with after every notification. */
  function AssertedBytes(r: RxState): nat {
    PayloadBytes(r.reorder) + StreamsBytes(r.streams) + EventsBytes(r.ordered)
  }

  /** The runtime assertion leaves out one store, so it holds exactly when that store has no bytes. */
  lemma {:induction false} AssertionHoldsExactlyWithoutUnordered(initTsn: u32, inStreams: u16, limit: nat,
                                                                 ops: seq<RxOp>)
    ensures var r := RunRx(NewRx(initTsn, inStreams, limit), ops);
      r.buffered == AssertedBytes(r) <==> EventsBytes(r.unordered) == 0
  {
    ReceiverConservesBytes(initTsn, inStreams, limit, ops);
  }

  /** A single unordered message of one byte makes the runtime assertion fail. */
  lemma {:induction false} AssertionFailsOnUnordered(initTsn: u32)
    ensures
      var d := DataChunk(initTsn, 0, 0, 0, [7], false, true, true, true);
      var r := RunRx(NewRx(initTsn, 1, 100), [Arrive(Data(d), 0)]);
      r.buffered != AssertedBytes(r)
  {
    var d := DataChunk(initTsn, 0, 0, 0, [7], false, true, true, true);
    var ops := [Arrive(Data(d), 0)];
    var r0 := NewRx(initTsn, 1, 100);
    assert ops[..0] == [];
    assert RunRx(r0, ops[..0]) == r0;
    var r := RunRx(r0, ops);
    assert r == HandleData(r0, d);
    assert SN.Increase(r0.tsnCounter) == initTsn;
    assert Pieces(r0.streams[0], d) == [d];
    var taken := Accept(r0, d);
    assert !NextIsBuffered(taken);
    assert r == QueueAck(taken);
    assert r.unordered == [Event(0, 0, true, [d])];
    assert PayloadBytes([d]) == 1;
    assert EventsBytes(r.unordered) == 1;
    AssertionHoldsExactlyWithoutUnordered(initTsn, 1, 100, ops);
  }
}
