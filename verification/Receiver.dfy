/** The receiving half of an association as the object the program works with. */
module Receiver {
  import opened Basics
  import opened SerialNumber
  import opened Chunks
  import opened RxModel
  import opened RxConservation
  import RA = RxAssertion

  class AssociationRx {
    var txNotifications: seq<TxNotification>
    var tsnCounter: u32
    var lastSentArwnd: u32
    var orderedReceiveEvents: seq<Event>
    var unorderedReceiveEvents: seq<Event>
    var perStream: seq<Reassembly>
    var tsnReorderBuffer: seq<DataChunk>
    const inBufferLimit: nat
    var currentInBuffer: nat
    var shutdownState: Option<ShutdownState>

    ghost function State(): RxState
      reads this
    {
      RxState(tsnCounter, lastSentArwnd, orderedReceiveEvents, unorderedReceiveEvents, perStream,
              tsnReorderBuffer, inBufferLimit, currentInBuffer, shutdownState, txNotifications)
    }

    /** The buffered bytes are those of the four stores; this is why no subtraction below underflows. */
    ghost predicate Valid()
      reads this
    {
      Conserved(State())
    }

    constructor (initTsn: u32, inStreams: u16, limit: nat)
      ensures Valid() && State() == NewRx(initTsn, inStreams, limit)
    {
      txNotifications := [];
      tsnCounter := Decrease(initTsn);
      lastSentArwnd := limit % TWO32;
      orderedReceiveEvents := [];
      unorderedReceiveEvents := [];
      perStream := seq(inStreams, _ => map[]);
      tsnReorderBuffer := [];
      inBufferLimit := limit;
      currentInBuffer := 0;
      shutdownState := None;
      new;
      EmptyStreams(inStreams);
    }

    /** Walks over the reorder buffer once, growing the open block or starting a new one. */
    method CollectBlocks() returns (blocks: seq<(u16, u16)>)
      ensures blocks == GapBlocks(tsnCounter, tsnReorderBuffer)
    {
      blocks := [];
      if |tsnReorderBuffer| > 0 {
        var blockStart := tsnReorderBuffer[0].tsn;
        var blockEnd := Decrease(blockStart);
        var i := 0;
        while i < |tsnReorderBuffer|
          invariant 0 <= i <= |tsnReorderBuffer|
          invariant i == 0 ==> blocks == [] && blockStart == tsnReorderBuffer[0].tsn && blockEnd == Decrease(blockStart)
          invariant i > 0 ==>
            GapBlocks(tsnCounter, tsnReorderBuffer) == blocks
              + Runs(tsnCounter, blockStart, blockEnd, tsnReorderBuffer[i..])
        {
          var tsn := tsnReorderBuffer[i].tsn;
          assert tsnReorderBuffer[i..][1..] == tsnReorderBuffer[i + 1..];
          if tsn == Increase(blockEnd) {
            blockEnd := Increase(blockEnd);
          } else {
            blocks := blocks + [Block(tsnCounter, blockStart, blockEnd)];
            blockStart := tsn;
            blockEnd := tsn;
          }
          i := i + 1;
        }
        blocks := blocks + [Block(tsnCounter, blockStart, blockEnd)];
      }
    }

    method QueueAck()
      requires Valid()
      modifies this
      ensures Valid() && State() == RxModel.QueueAck(old(State()))
    {
      lastSentArwnd := (inBufferLimit - currentInBuffer) % TWO32;
      var blocks := CollectBlocks();
      txNotifications := txNotifications + [Send(SAck(SelectiveAck(tsnCounter, lastSentArwnd, blocks, [])))];
    }

    method Reassemble(data: DataChunk)
      requires Valid() && KnownStream(State(), data) && Fits(State(), data)
      modifies this
      ensures Valid() && State() == Accept(old(State()), data)
    {
      AcceptConserves(State(), data);
      AddFragment(data);
    }

    /** Adds a chunk to its message, and hands the message over if this was its last fragment. */
    method AddFragment(data: DataChunk)
      requires KnownStream(State(), data)
      modifies this
      ensures State() == Accept(old(State()), data)
    {
      tsnCounter := Increase(tsnCounter);
      currentInBuffer := currentInBuffer + |data.buf|;
      var queue: Reassembly := perStream[data.streamId];
      var pieces := (if data.seqNum in queue then queue[data.seqNum] else []) + [data];
      if data.end {
        perStream := perStream[data.streamId := queue - {data.seqNum}];
        var event := Event(data.streamId, data.ppid, data.unordered, pieces);
        if event.unordered {
          unorderedReceiveEvents := unorderedReceiveEvents + [event];
        } else {
          orderedReceiveEvents := orderedReceiveEvents + [event];
        }
      } else {
        perStream := perStream[data.streamId := queue[data.seqNum := pieces]];
      }
    }

    method PopFirstReordered() returns (first: DataChunk)
      requires Valid() && |tsnReorderBuffer| > 0
      modifies this
      ensures Valid() && State() == PopFirst(old(State())) && first == old(tsnReorderBuffer[0])
    {
      PayloadBytesHead(tsnReorderBuffer);
      first := tsnReorderBuffer[0];
      tsnReorderBuffer := tsnReorderBuffer[1..];
      currentInBuffer := currentInBuffer - |first.buf|;
    }

    /** Takes one chunk in order; the nested calls empty the reorder buffer up to the next gap. */
    method HandleInOrderPacket(data: DataChunk) returns (taken: bool)
      requires Valid()
      modifies this
      ensures Valid() && State() == InOrder(old(State()), data).0 && taken == InOrder(old(State()), data).1
      ensures |tsnReorderBuffer| <= old(|tsnReorderBuffer|)
      decreases |tsnReorderBuffer|
    {
      if data.streamId >= |perStream| {
        return true;
      }
      if currentInBuffer + |data.buf| > inBufferLimit {
        return false;
      }
      Reassemble(data);
      ghost var accepted := State();
      while |tsnReorderBuffer| > 0 && tsnReorderBuffer[0].tsn == Increase(tsnCounter)
        invariant Valid() && Drain(State()) == Drain(accepted)
        invariant |tsnReorderBuffer| <= |accepted.reorder|
        decreases |tsnReorderBuffer|
      {
        var first := PopFirstReordered();
        NestedDrain(State(), first);
        var _ := HandleInOrderPacket(first);
      }
      taken := true;
    }

    /** Draining after a nested call is the same as draining after taking a single chunk. */
    static lemma NestedDrain(r: RxState, d: DataChunk)
      ensures Drain(InOrder(r, d).0) == Drain(TakeOne(r, d).0)
    {
      DrainIsFinished(TakeOne(r, d).0);
    }

    method HandleDataChunk(data: DataChunk)
      requires Valid()
      modifies this
      ensures Valid() && State() == HandleData(old(State()), data)
    {
      match TsnCompare(data.tsn, Increase(tsnCounter))
      case Greater =>
        if Contains(tsnReorderBuffer, data.tsn) {
          return;
        }
        if currentInBuffer + |data.buf| <= inBufferLimit {
          InsertHolds(tsnReorderBuffer, data);
          currentInBuffer := currentInBuffer + |data.buf|;
          tsnReorderBuffer := Insert(tsnReorderBuffer, data);
          assert State() == Store(old(State()), data);
          QueueAck();
        }
      case Equal =>
        var taken := HandleInOrderPacket(data);
        if taken {
          QueueAck();
        }
      case Less =>
    }

    /** Every kind of chunk that is not handled reaches an unimplemented branch, which panics. */
    method HandleChunk(chunk: Chunk, now: nat) returns (panicked: bool)
      requires Valid()
      modifies this
      ensures Valid() && State() == Notified(old(State()), chunk, now) && (panicked <==> !IsImplemented(chunk))
    {
      panicked := false;
      match chunk
      case Data(data) => HandleDataChunk(data);
      case SAck(sack) => txNotifications := txNotifications + [PeerSAck(sack, now)];
      case Abort(_, _) =>
        shutdownState := Some(AbortReceived);
        txNotifications := txNotifications + [PeerAbort];
      case ShutDown(_) =>
        shutdownState := Some(ShutdownReceived);
        txNotifications := txNotifications + [PeerShutdown];
      case ShutDownAck =>
        shutdownState := Some(Complete);
        txNotifications := txNotifications + [PeerShutdownAck];
      case ShutDownComplete(_) =>
        shutdownState := Some(Complete);
        txNotifications := txNotifications + [PeerShutdownComplete];
      case HeartBeatChunk(beat) =>
        txNotifications := txNotifications + [Send(HeartBeatAckChunk(beat))];
      case HeartBeatAckChunk(ack) =>
        txNotifications := txNotifications + [PeerHeartBeatAck(ack, now)];
      case _ => panicked := true;
    }

    /** Whether the stores without the unordered messages add up to the counter. */
    method AssertInvariants() returns (holds: bool)
      ensures holds <==> RA.AssertionHolds(State())
    {
      var reordered := PayloadBytes(tsnReorderBuffer);
      var inOrder := StreamsBytes(perStream) + EventsBytes(orderedReceiveEvents);
      holds := currentInBuffer == reordered + inOrder;
    }

    /** A SACK or a heartbeat answer is passed on to the transmitter. Handling a notification panics exactly for a kind
        of chunk that is not implemented, or if an unordered message with payload waits or is completed. */
    method Notification(chunk: Chunk, now: nat) returns (panicked: bool)
      requires Valid()
      modifies this
      ensures Valid() && State() == Notified(old(State()), chunk, now)
      ensures panicked <==> !IsImplemented(chunk) || !RA.LeavesNoUnordered(old(State()), chunk)
      ensures chunk.SAck? ==> txNotifications == old(txNotifications) + [PeerSAck(chunk.sack, now)]
      ensures chunk.HeartBeatAckChunk? ==>
        txNotifications == old(txNotifications) + [PeerHeartBeatAck(chunk.beatAck, now)]
    {
      RA.AssertionPassesExactly(State(), chunk, now);
      panicked := HandleChunk(chunk, now);
      if !panicked {
        var holds := AssertInvariants();
        panicked := !holds;
      }
    }

    method PollData() returns (result: PollDataResult)
      requires Valid()
      modifies this
      ensures Valid() && (State(), result) == RxModel.PollData(old(State()))
    {
      if shutdownState.Some? {
        return Closed;
      }
      if |unorderedReceiveEvents| > 0 {
        var event := unorderedReceiveEvents[0];
        unorderedReceiveEvents := unorderedReceiveEvents[1..];
        currentInBuffer := currentInBuffer - PayloadBytes(event.data);
        result := Received(event);
      } else if |orderedReceiveEvents| > 0 {
        var event := orderedReceiveEvents[0];
        orderedReceiveEvents := orderedReceiveEvents[1..];
        currentInBuffer := currentInBuffer - PayloadBytes(event.data);
        result := Received(event);
      } else {
        result := NoneAvailable;
      }
    }

    method TakeNotifications() returns (notes: seq<TxNotification>)
      requires Valid()
      modifies this
      ensures Valid() && State() == old(State()).(notes := []) && notes == old(txNotifications)
    {
      notes := txNotifications;
      txNotifications := [];
    }
  }
}
