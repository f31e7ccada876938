/** The transmitting half of an association as the object the program works with. */
module Transmitter {
  import BigEndian
  import opened Basics
  import opened SerialNumber
  import opened Chunks
  import opened TxModel
  import opened TxInvariants
  import C = Congestion
  import R = RoundTrip

  /** The state after the first entry of the resend queue was popped. */
  function PoppedOnce(s: TxState): TxState
    requires s.resend != []
  {
    var bytes := |s.resend[0].data.buf|;
    s.(resend := s.resend[1..], outBuffered := s.outBuffered - bytes, inFlight := s.inFlight - bytes)
  }

  /** The state after the first `k` entries were popped. */
  function Popped(s: TxState, k: nat): TxState
    requires k <= |s.resend|
  {
    var bytes := QueuedBytes(s.resend[..k]);
    s.(resend := s.resend[k..], outBuffered := s.outBuffered - bytes, inFlight := s.inFlight - bytes)
  }

  lemma {:induction false} PoppedNothing(s: TxState)
    ensures Popped(s, 0) == s && QueuedBytes(s.resend[..0]) == 0
  {
    assert s.resend[0..] == s.resend;
  }

  lemma {:induction false} PrefixBytes(q: seq<ResendEntry>, k: nat)
    requires k <= |q|
    ensures QueuedBytes(q[..k]) <= QueuedBytes(q)
  {
    DataOfSplit(q, k);
    PayloadBytesConcat(DataOf(q)[..k], DataOf(q)[k..]);
    assert DataOf(q) == DataOf(q)[..k] + DataOf(q)[k..];
  }

  lemma {:induction false} NextPrefixBytes(q: seq<ResendEntry>, k: nat)
    requires k < |q|
    ensures QueuedBytes(q[..k + 1]) == QueuedBytes(q[..k]) + |q[k].data.buf|
  {
    assert DataOf(q[..k + 1])[..k] == DataOf(q[..k]);
  }

  lemma {:induction false} PoppedOneMore(s: TxState, k: nat)
    requires k < |s.resend| && QueuedBytes(s.resend) == s.inFlight <= s.outBuffered
    ensures Popped(s, k).resend != [] && Popped(s, k + 1) == PoppedOnce(Popped(s, k))
    ensures Popped(s, k).resend[0] == s.resend[k]
    ensures |s.resend[k].data.buf| <= Popped(s, k).inFlight <= Popped(s, k).outBuffered
    ensures QueuedBytes(s.resend[..k + 1]) == QueuedBytes(s.resend[..k]) + |s.resend[k].data.buf|
  {
    NextPrefixBytes(s.resend, k);
    PrefixBytes(s.resend, k + 1);
  }

  /** A heartbeat answer without a type, or one of ours without a length. */
  predicate IsShortBeat(note: TxNotification) {
    note.PeerHeartBeatAck? && note.beatAck.OpaqueBeat? &&
    var data := note.beatAck.data;
    |data| < 2 || (|data| < 4 && BigEndian.Read16(data) == 1)
  }

  /** Reading a heartbeat answer runs past its end exactly if it is that short. */
  lemma {:induction false} ShortBeatExactly(note: TxNotification)
    requires note.PeerHeartBeatAck?
    ensures ReadBeat(note.beatAck).BeatPanicked? <==> IsShortBeat(note)
  {
    if note.beatAck.OpaqueBeat? && |note.beatAck.data| >= 2 {
      var data := note.beatAck.data;
      BigEndian.TakesExactly(data, [2]);
      BigEndian.TakesExactly(data[2..], [2]);
    }
  }

  class AssociationTx {
    const primaryCongestion: C.PerDestinationInfo
    const srtt: R.Srtt
    var primaryPath: TransportAddress
    var outQueue: seq<DataChunk>
    var resendQueue: seq<ResendEntry>
    var sendNext: seq<Chunk>
    var tsnCounter: u32
    var lastAckedTsn: u32
    var peerLastAckedTsn: u32
    var duplicatedAcks: nat
    const outBufferLimit: nat
    var currentOutBuffered: nat
    var currentInFlight: nat
    var perStream: seq<u16>
    var peerRcvWindow: u32
    var timerCtr: u64
    var rtoTimer: Option<Timer>
    var shutdownRtoTimer: Option<Timer>
    var heartbeatTimer: Option<Timer>
    var heartbeatsUnacked: nat
    var pmtu: Pmtu
    var shutdownState: Option<ShutdownState>

    ghost function State(): TxState
      reads this, primaryCongestion, srtt
    {
      TxState(outQueue, resendQueue, sendNext, tsnCounter, lastAckedTsn, peerLastAckedTsn, duplicatedAcks,
              outBufferLimit, currentOutBuffered, currentInFlight, perStream, peerRcvWindow,
              primaryCongestion.Value(), srtt.Value(), timerCtr, rtoTimer, shutdownRtoTimer, heartbeatTimer,
              heartbeatsUnacked, pmtu, primaryPath, shutdownState)
    }

    /** Counters and queues agree, which is why no subtraction below underflows, and the timeout is in range. */
    ghost predicate Valid()
      reads this, primaryCongestion, srtt
    {
      Sound(State()) && srtt.Valid()
    }

    constructor (settings: AssocTxSettings, now: nat)
      ensures Valid() && State() == NewTx(settings, now)
      ensures fresh(primaryCongestion) && fresh(srtt)
    {
      primaryCongestion := new C.PerDestinationInfo(1500);
      srtt := new R.Srtt();
      primaryPath := settings.primaryPath;
      tsnCounter := settings.initTsn;
      lastAckedTsn := 0;
      peerLastAckedTsn := 0;
      duplicatedAcks := 0;
      outBufferLimit := settings.outBufferLimit;
      peerRcvWindow := settings.peerArwnd;
      outQueue := [];
      currentInFlight := 0;
      resendQueue := [];
      sendNext := [];
      perStream := seq(settings.outStreams, _ => 0);
      currentOutBuffered := 0;
      rtoTimer := None;
      shutdownRtoTimer := None;
      heartbeatTimer := Some(Timer(now + 10 * R.MILLISECOND, 0));
      heartbeatsUnacked := 0;
      pmtu := 1200;
      timerCtr := 1;
      shutdownState := None;
    }

    // ----- timers -----

    method SetRtoTimeout(now: nat)
      modifies this`rtoTimer, this`timerCtr
      ensures State() == ArmRto(old(State()), now)
    {
      rtoTimer := Some(Timer(now + srtt.RtoDuration(), timerCtr));
      timerCtr := NextMarker(timerCtr);
    }

    method SetShutdownRtoTimeout(now: nat)
      modifies this`shutdownRtoTimer, this`timerCtr
      ensures State() == ArmShutdown(old(State()), now)
    {
      shutdownRtoTimer := Some(Timer(now + srtt.RtoDuration(), timerCtr));
      timerCtr := NextMarker(timerCtr);
    }

    method SetHeartbeatTimeout(at: nat)
      modifies this`heartbeatTimer, this`timerCtr
      ensures State() == ArmHeartbeat(old(State()), at)
    {
      heartbeatTimer := Some(Timer(at, timerCtr));
      timerCtr := NextMarker(timerCtr);
    }

    /** Some timer of the list that no other timer precedes, if there is one. */
    static method FindNextTimer(timers: seq<Option<Timer>>) returns (minimum: Option<Timer>)
      ensures minimum.None? <==> forall i :: 0 <= i < |timers| ==> timers[i].None?
      ensures minimum.Some? ==> minimum in timers
      ensures minimum.Some? ==>
        forall i :: 0 <= i < |timers| && timers[i].Some? ==> minimum.value.at <= timers[i].value.at
    {
      minimum := None;
      var k := 0;
      while k < |timers|
        invariant 0 <= k <= |timers|
        invariant minimum.None? <==> forall i :: 0 <= i < k ==> timers[i].None?
        invariant minimum.Some? ==> minimum in timers
        invariant minimum.Some? ==>
          forall i :: 0 <= i < k && timers[i].Some? ==> minimum.value.at <= timers[i].value.at
      {
        if minimum.Some? {
          if timers[k].Some? {
            minimum := if timers[k].value.at < minimum.value.at then timers[k] else minimum;
          }
        } else {
          minimum := timers[k];
        }
        k := k + 1;
      }
    }

    /** No timer of this transmitter is due earlier. */
    method GetNextTimeout() returns (timer: Option<Timer>)
      ensures timer.None? <==> shutdownRtoTimer.None? && rtoTimer.None? && heartbeatTimer.None?
      ensures timer.Some? ==> timer in [shutdownRtoTimer, rtoTimer, heartbeatTimer]
      ensures timer.Some? && rtoTimer.Some? ==> timer.value.at <= rtoTimer.value.at
      ensures timer.Some? && shutdownRtoTimer.Some? ==> timer.value.at <= shutdownRtoTimer.value.at
      ensures timer.Some? && heartbeatTimer.Some? ==> timer.value.at <= heartbeatTimer.value.at
    {
      var timers := [shutdownRtoTimer, rtoTimer, heartbeatTimer];
      timer := FindNextTimer(timers);
      assert timers[0] == shutdownRtoTimer && timers[1] == rtoTimer && timers[2] == heartbeatTimer;
    }

    // ----- the application -----

    method Enqueue(data: Bytes, stream: u16, ppid: u32, immediate: bool, unordered: bool)
      returns (error: Option<SendErrorKind>)
      modifies this
      ensures (State(), error) == TrySend(old(State()), data, stream, ppid, immediate, unordered)
    {
      if shutdownState.Some? {
        return Some(SendClosed);
      }
      if stream >= |perStream| {
        return Some(UnknownStream);
      }
      if currentOutBuffered + |data| > outBufferLimit {
        return Some(BufferFull);
      }
      currentOutBuffered := currentOutBuffered + |data|;
      outQueue := outQueue + [DataChunk(0, stream, perStream[stream], ppid, data, immediate, unordered, true, true)];
      if !unordered {
        perStream := perStream[stream := IncreaseSequence(perStream[stream])];
      }
      error := None;
    }

    /** An accepted message takes the sequence number of its stream, and only an ordered one uses it up. */
    method TrySendData(data: Bytes, stream: u16, ppid: u32, immediate: bool, unordered: bool)
      returns (error: Option<SendErrorKind>)
      requires Valid()
      modifies this
      ensures Valid() && (State(), error) == TrySend(old(State()), data, stream, ppid, immediate, unordered)
      ensures error.None? ==>
        && |outQueue| == |old(outQueue)| + 1 && outQueue[|old(outQueue)|].seqNum == old(perStream)[stream]
        && perStream == if unordered then old(perStream)
                        else old(perStream)[stream := IncreaseSequence(old(perStream)[stream])]
    {
      error := Enqueue(data, stream, ppid, immediate, unordered);
      SoundStep(old(State()), TrySendOp(data, stream, ppid, immediate, unordered));
    }

    method StartShutdown()
      requires Valid()
      modifies this`shutdownState
      ensures Valid() && State() == InitiateShutdown(old(State()))
    {
      shutdownState := Some(TryingTo);
    }

    // ----- data on the wire -----

    method AddToFlight(packet: DataChunk, now: nat)
      modifies this`tsnCounter, this`peerRcvWindow, this`currentInFlight, this`resendQueue
      ensures State() == EnterFlight(old(State()), packet, now)
    {
      tsnCounter := Increase(tsnCounter);
      peerRcvWindow := (peerRcvWindow - |packet.buf|) % TWO32;
      currentInFlight := currentInFlight + |packet.buf|;
      resendQueue := resendQueue + [ResendEntry(now, packet, false, false, false, false)];
    }

    /** Books a chunk that just got the next TSN as in flight. */
    method BookPacket(packet: DataChunk, now: nat)
      requires srtt.Valid()
      modifies this`tsnCounter, this`peerRcvWindow, this`currentInFlight, this`resendQueue, srtt
      ensures State() == Book(old(State()), packet, now)
      ensures srtt.Valid()
    {
      AddToFlight(packet, now);
      srtt.TsnSent(packet.tsn, now);
    }

    method PutOnWire(packet: DataChunk, now: nat)
      requires srtt.Valid()
      modifies this`tsnCounter, this`peerRcvWindow, this`currentInFlight, this`resendQueue, this`rtoTimer,
        this`timerCtr, srtt
      ensures State() == Transmit(old(State()), packet, now)
      ensures srtt.Valid()
    {
      BookPacket(packet, now);
      if rtoTimer.None? {
        SetRtoTimeout(now);
      }
    }

    method SendFront(now: nat) returns (packet: DataChunk)
      requires |outQueue| > 0
      requires srtt.Valid()
      modifies this, srtt
      ensures packet == old(outQueue[0]).(tsn := old(tsnCounter), end := true)
      ensures State() == Transmit(old(State()).(outQueue := old(outQueue)[1..]), packet, now)
      ensures srtt.Valid()
    {
      packet := outQueue[0].(tsn := tsnCounter, end := true);
      outQueue := outQueue[1..];
      PutOnWire(packet, now);
    }

    method SendFragment(size: nat, now: nat) returns (packet: DataChunk)
      requires |outQueue| > 0 && size <= |outQueue[0].buf|
      requires srtt.Valid()
      modifies this, srtt
      ensures packet == Fragment(old(outQueue[0]), old(tsnCounter), size)
      ensures State() == Transmit(old(State()).(outQueue := [Remainder(old(outQueue[0]), size)] + old(outQueue)[1..]),
                                  packet, now)
      ensures srtt.Valid()
    {
      var front := outQueue[0];
      packet := Fragment(front, tsnCounter, size);
      outQueue := [Remainder(front, size)] + outQueue[1..];
      PutOnWire(packet, now);
    }

    method PollNewData(room: nat, now: nat) returns (result: PollResult<DataChunk>)
      requires srtt.Valid()
      modifies this, srtt
      ensures (State(), result) == PollNew(old(State()), room, now)
      ensures srtt.Valid()
    {
      if |outQueue| == 0 || currentInFlight > primaryCongestion.cwnd {
        return Nothing;
      }
      var front := outQueue[0];
      var dataLimit := Min(room, peerRcvWindow);
      if |front.buf| <= dataLimit {
        var packet := SendFront(now);
        result := Polled(packet);
      } else if |front.buf| > pmtu && dataLimit > 0 {
        var packet := SendFragment(dataLimit, now);
        result := Polled(packet);
      } else {
        result := Nothing;
      }
    }

    method PollLostData(room: nat, now: nat) returns (result: PollResult<DataChunk>)
      modifies this
      ensures (State(), result) == PollLost(old(State()), room, now)
    {
      if |resendQueue| == 0 {
        return Panicked;
      }
      var front := resendQueue[0];
      if |front.data.buf| <= room && front.markedForRetransmit {
        resendQueue := resendQueue[0 := front.(markedForRetransmit := false)];
        if rtoTimer.None? {
          SetRtoTimeout(now);
        }
        result := Polled(front.data);
      } else {
        result := Nothing;
      }
    }

    /** Returns the first entry that is to be repeated and fits, and remembers that it was repeated. */
    method PollFastData(room: nat) returns (result: PollResult<DataChunk>)
      modifies this
      ensures (State(), result) == PollFast(old(State()), room)
      ensures result.Polled? <==> FirstFast(old(resendQueue), room) < |old(resendQueue)|
      ensures result.Polled? ==>
        var i := FirstFast(old(resendQueue), room);
        && |resendQueue| == |old(resendQueue)| && result.value == old(resendQueue)[i].data
        && resendQueue[i].markedWasFastRetransmit && !resendQueue[i].markedForFastRetransmit
    {
      var i := 0;
      while i < |resendQueue|
        invariant 0 <= i <= |resendQueue| && State() == old(State())
        invariant forall j :: 0 <= j < i ==> !WantsFastRetransmit(resendQueue[j], room)
      {
        var packet := resendQueue[i];
        if packet.markedForFastRetransmit && !packet.markedWasFastRetransmit && |packet.data.buf| <= room {
          resendQueue := resendQueue[i := packet.(markedWasFastRetransmit := true, markedForFastRetransmit := false)];
          return Polled(packet.data);
        }
        i := i + 1;
      }
      result := Nothing;
    }

    method PollPhase(room: nat, now: nat) returns (result: PollResult<DataChunk>)
      requires srtt.Valid()
      modifies this, srtt
      ensures (State(), result)
           == if old(primaryCongestion.phase).LossRecovery? then PollLost(old(State()), room, now)
              else if old(primaryCongestion.phase).FastRecovery? then PollFast(old(State()), room)
              else PollNew(old(State()), room, now)
      ensures srtt.Valid()
    {
      match primaryCongestion.phase
      case LossRecovery => result := PollLostData(room, now);
      case FastRecovery => result := PollFastData(room);
      case CongestionAvoidance | SlowStart => result := PollNewData(room, now);
    }

    method PollByPhase(dataLimit: nat, alreadyPacked: nat, now: nat) returns (result: PollResult<DataChunk>)
      requires srtt.Valid()
      modifies this, srtt
      ensures (State(), result) == PollData(old(State()), dataLimit, alreadyPacked, now)
      ensures srtt.Valid()
    {
      if pmtu <= alreadyPacked {
        return Nothing;
      }
      var limit := Min(dataLimit, pmtu - alreadyPacked);
      if limit <= 16 {
        return Nothing;
      }
      result := PollPhase(limit - 16, now);
    }

    method PollDataToSend(dataLimit: nat, alreadyPacked: nat, now: nat) returns (result: PollResult<DataChunk>)
      requires Valid()
      modifies this, srtt
      ensures Valid() && (State(), result) == PollData(old(State()), dataLimit, alreadyPacked, now)
    {
      result := PollByPhase(dataLimit, alreadyPacked, now);
      SoundStep(old(State()), PollDataOp(dataLimit, alreadyPacked, now));
    }

    // ----- acknowledgements -----

    /** Takes the next packet or the next block, whichever is settled, until one of them runs out. */
    static method MarkGaps(queue: seq<ResendEntry>, blocks: seq<(u16, u16)>, cumTsn: u32)
      returns (marked: seq<ResendEntry>, partial: nat)
      ensures marked == GapWalk(queue, blocks, cumTsn).0 && partial == GapWalk(queue, blocks, cumTsn).1
    {
      var packets, ranges := queue, blocks;
      marked, partial := [], 0;
      while |packets| > 0 && |ranges| > 0
        invariant GapWalk(queue, blocks, cumTsn).0 == marked + GapWalk(packets, ranges, cumTsn).0
        invariant GapWalk(queue, blocks, cumTsn).1 == partial + GapWalk(packets, ranges, cumTsn).1
        decreases |packets| + |ranges|
      {
        var packet := packets[0];
        var (lo, hi) := BlockTsns(cumTsn, ranges[0]);
        ghost var rest := GapWalk(packets[1..], ranges, cumTsn).0;
        if packet.partiallyAcked {
          Reassociate(marked, [packet], rest);
          marked := marked + [packet];
          packets := packets[1..];
        } else if TsnCompare(packet.data.tsn, lo) == Less {
          Reassociate(marked, [packet.(markedForFastRetransmit := true)], rest);
          marked := marked + [packet.(markedForFastRetransmit := true)];
          packets := packets[1..];
        } else if TsnCompare(packet.data.tsn, hi) == Less {
          partial := partial + |packet.data.buf|;
          Reassociate(marked, [packet.(partiallyAcked := true)], rest);
          marked := marked + [packet.(partiallyAcked := true)];
          packets := packets[1..];
        } else {
          ranges := ranges[1..];
        }
      }
      marked := marked + packets;
    }

    method ProcessSackGapBlocks(sack: SelectiveAck, fullyAcked: nat, inFlightBeforeSack: nat)
      modifies this`resendQueue, primaryCongestion
      ensures State() == ProcessGapBlocks(old(State()), sack, fullyAcked, inFlightBeforeSack)
    {
      var partial;
      resendQueue, partial := MarkGaps(resendQueue, sack.blocks, sack.cumTsn);
      primaryCongestion.RecordAcked(partial, fullyAcked, inFlightBeforeSack);
    }

    method HandleSack(sack: SelectiveAck, now: nat)
      requires Valid()
      modifies this, primaryCongestion, srtt
      ensures Valid() && State() == TxModel.HandleSack(old(State()), sack, now)
    {
      match TsnCompare(lastAckedTsn, sack.cumTsn) {
        case Greater =>
        case Equal => HandleDuplicateSack(sack);
        case Less => HandleNewSack(sack, now);
      }
      SoundStep(old(State()), NotifyOp(PeerSAck(sack, now), 0));
    }

    method PopEntry() returns (bytes: nat)
      requires |resendQueue| > 0 && |resendQueue[0].data.buf| <= currentInFlight <= currentOutBuffered
      modifies this`resendQueue, this`currentOutBuffered, this`currentInFlight
      ensures State() == PoppedOnce(old(State())) && bytes == |old(resendQueue[0]).data.buf|
    {
      bytes := |resendQueue[0].data.buf|;
      resendQueue := resendQueue[1..];
      currentOutBuffered := currentOutBuffered - bytes;
      currentInFlight := currentInFlight - bytes;
    }

    /** Pops the acknowledged front of the queue, entry by entry; the counters never run below zero. */
    method PopAcked(cumTsn: u32) returns (bytesAcked: nat)
      requires QueuedBytes(resendQueue) == currentInFlight <= currentOutBuffered
      modifies this`resendQueue, this`currentOutBuffered, this`currentInFlight
      ensures State() == Popped(old(State()), AckedCount(old(resendQueue), cumTsn))
      ensures bytesAcked == QueuedBytes(old(resendQueue)[..AckedCount(old(resendQueue), cumTsn)])
    {
      bytesAcked := 0;
      ghost var s, k := State(), 0;
      PoppedNothing(s);
      while |resendQueue| > 0 && TsnCompare(resendQueue[0].data.tsn, cumTsn) != Greater
        modifies this`resendQueue, this`currentOutBuffered, this`currentInFlight
        invariant 0 <= k <= |s.resend| && AckedUpTo(s.resend, cumTsn, k) == AckedCount(s.resend, cumTsn)
        invariant State() == Popped(s, k) && bytesAcked == QueuedBytes(s.resend[..k])
        decreases |resendQueue|
      {
        PoppedOneMore(s, k);
        var bytes := PopEntry();
        bytesAcked := bytesAcked + bytes;
        k := k + 1;
      }
    }

    method ForgetAcked(cumTsn: u32) returns (bytesAcked: nat)
      requires QueuedBytes(resendQueue) == currentInFlight <= currentOutBuffered
      modifies this`lastAckedTsn, this`duplicatedAcks, this`resendQueue, this`currentOutBuffered, this`currentInFlight
      ensures State() == Advance(old(State()), cumTsn)
      ensures bytesAcked == old(currentInFlight) - currentInFlight
    {
      lastAckedTsn := cumTsn;
      duplicatedAcks := 0;
      bytesAcked := PopAcked(cumTsn);
    }

    method AbsorbSack(sack: SelectiveAck, now: nat) returns (bytesAcked: nat)
      requires QueuedBytes(resendQueue) == currentInFlight <= currentOutBuffered && srtt.Valid()
      modifies this, primaryCongestion, srtt
      ensures State() == Absorb(old(State()), sack, now) && bytesAcked == old(currentInFlight) - currentInFlight
      ensures srtt.Valid()
    {
      var inFlightBeforeSack := currentInFlight;
      bytesAcked := ForgetAcked(sack.cumTsn);
      ProcessSackGapBlocks(sack, bytesAcked, inFlightBeforeSack);
      peerRcvWindow := SaturatingSub(sack.aRwnd, currentInFlight % TWO32);
      srtt.TsnAcked(sack.cumTsn, now);
    }

    method HandleNewSack(sack: SelectiveAck, now: nat)
      requires QueuedBytes(resendQueue) == currentInFlight <= currentOutBuffered && srtt.Valid()
      modifies this, primaryCongestion, srtt
      ensures State() == NewSack(old(State()), sack, now)
      ensures srtt.Valid()
    {
      var bytesAcked := AbsorbSack(sack, now);
      if bytesAcked > 0 {
        if currentInFlight > 0 {
          SetRtoTimeout(now);
        } else {
          rtoTimer := None;
        }
      }
    }

    method HandleDuplicateSack(sack: SelectiveAck)
      modifies this, primaryCongestion
      ensures State() == DuplicateSack(old(State()), sack)
    {
      peerRcvWindow := SaturatingSub(sack.aRwnd, currentInFlight % TWO32);
      duplicatedAcks := duplicatedAcks + 1;
      if duplicatedAcks >= 2 && |resendQueue| > 0 {
        primaryCongestion.StartFastRecovery();
      }
      ProcessSackGapBlocks(sack, 0, currentInFlight);
    }

    // ----- timeouts -----

    method HandleRtoTimeout(timeout: Timer)
      requires srtt.Valid()
      modifies this, primaryCongestion, srtt
      ensures State() == RtoTimeout(old(State()), timeout.at)
      ensures srtt.Valid()
    {
      if |resendQueue| == 0 {
        rtoTimer := None;
        return;
      }
      primaryCongestion.StartLossRecovery();
      srtt.RtoExpired();
      ghost var q := resendQueue;
      ghost var s := State();
      var rto := srtt.RtoDuration();
      var i := 0;
      while i < |resendQueue|
        invariant 0 <= i <= |resendQueue| == |q|
        invariant forall j :: 0 <= j < i ==> resendQueue[j] == MarkLate(q[j], rto, timeout.at)
        invariant forall j :: i <= j < |q| ==> resendQueue[j] == q[j]
        invariant State() == s.(resend := resendQueue)
      {
        var p := resendQueue[i];
        if !p.markedForRetransmit && p.queuedAt + rto <= timeout.at {
          resendQueue := resendQueue[i := p.(markedForRetransmit := true, queuedAt := timeout.at)];
        }
        i := i + 1;
      }
      assert resendQueue == MarkAllLate(q, rto, timeout.at);
      SetRtoTimeout(timeout.at);
    }

    method HandleShutdownRtoTimeout(timeout: Timer)
      modifies this`sendNext, this`shutdownRtoTimer, this`timerCtr
      ensures State() == ShutdownTimeout(old(State()), timeout.at)
    {
      match shutdownState
      case Some(ShutdownSent) =>
        sendNext := sendNext + [ShutDown(peerLastAckedTsn)];
        SetShutdownRtoTimeout(timeout.at);
      case Some(ShutdownAckSent) =>
        sendNext := sendNext + [ShutDownAck];
        SetShutdownRtoTimeout(timeout.at);
      case _ =>
    }

    method HandleHeartbeatTimeout(plan: ProbePlan)
      modifies this`sendNext, this`heartbeatsUnacked, this`heartbeatTimer, this`timerCtr
      ensures State() == HeartbeatTimeout(old(State()), plan)
    {
      if plan.probe.None? {
        heartbeatsUnacked := heartbeatsUnacked + 1;
      } else {
        sendNext := sendNext + [HeartBeatChunk(OurBeat(plan.probe.value))];
      }
      SetHeartbeatTimeout(plan.next);
    }

    method RunTimers(timeout: Timer, plan: ProbePlan)
      requires srtt.Valid()
      modifies this, primaryCongestion, srtt
      ensures State() == TxModel.HandleTimeout(old(State()), timeout, plan)
      ensures srtt.Valid()
    {
      if rtoTimer.Some? && rtoTimer.value.marker == timeout.marker {
        HandleRtoTimeout(timeout);
      }
      if shutdownRtoTimer.Some? && shutdownRtoTimer.value.marker == timeout.marker {
        HandleShutdownRtoTimeout(timeout);
      }
      if heartbeatTimer.Some? && heartbeatTimer.value.marker == timeout.marker {
        HandleHeartbeatTimeout(plan);
      }
    }

    method HandleTimeout(timeout: Timer, plan: ProbePlan)
      requires Valid()
      modifies this, primaryCongestion, srtt
      ensures Valid() && State() == TxModel.HandleTimeout(old(State()), timeout, plan)
    {
      TimeoutKeepsSound(State(), timeout, plan);
      RunTimers(timeout, plan);
    }

    // ----- notifications and signals -----

    method ProcessHeartbeatAck(beat: HeartBeat, next: nat) returns (panicked: bool)
      modifies this`heartbeatsUnacked, this`pmtu, this`heartbeatTimer, this`timerCtr, primaryCongestion
      ensures State() == HeartbeatAcked(old(State()), beat, next) && (panicked <==> ReadBeat(beat).BeatPanicked?)
    {
      heartbeatsUnacked := 0;
      var read := ReadBeat(beat);
      panicked := read.BeatPanicked?;
      if read.Ours? {
        pmtu := Max(pmtu, read.probe);
        primaryCongestion.SetPmtu(pmtu);
      }
      SetHeartbeatTimeout(next);
    }

    method QueueChunk(chunk: Chunk)
      requires !chunk.Data?
      modifies this`sendNext, this`peerLastAckedTsn
      ensures State() == Notify(old(State()), Send(chunk), 0)
    {
      if chunk.SAck? {
        peerLastAckedTsn := chunk.sack.cumTsn;
        if shutdownState == Some(ShutdownSent) {
          sendNext := sendNext + [ShutDown(peerLastAckedTsn)];
        }
      }
      sendNext := sendNext + [chunk];
    }

    method Dispatch(note: TxNotification, next: nat) returns (panicked: bool)
      requires !note.PeerSAck? && Clean(NotifyOp(note, next))
      modifies this, primaryCongestion
      ensures State() == Notify(old(State()), note, next) && (panicked <==> IsShortBeat(note))
    {
      if note.PeerHeartBeatAck? {
        ShortBeatExactly(note);
      }
      panicked := false;
      match note
      case Send(chunk) => QueueChunk(chunk);
      case PrimaryPathChanged(address) => primaryPath := address;
      case PeerAbort => shutdownState := Some(AbortReceived);
      case Shutdown =>
        if shutdownState.None? {
          shutdownState := Some(TryingTo);
        }
      case PeerShutdown =>
        if shutdownState.None? {
          shutdownState := Some(ShutdownReceived);
        } else if shutdownState.value.ShutdownSent? || shutdownState.value.ShutdownAckSent? {
          sendNext := sendNext + [ShutDownAck];
        }
      case PeerShutdownAck =>
        sendNext := sendNext + [ShutDownComplete(false)];
        shutdownState := Some(Complete);
      case PeerShutdownComplete => shutdownState := Some(Complete);
      case PeerHeartBeatAck(beat, _) => panicked := ProcessHeartbeatAck(beat, next);
    }

    method NotifyOther(note: TxNotification, next: nat) returns (panicked: bool)
      requires Valid() && !note.PeerSAck? && Clean(NotifyOp(note, next))
      modifies this, primaryCongestion
      ensures Valid() && State() == Notify(old(State()), note, next) && (panicked <==> IsShortBeat(note))
    {
      SoundStep(State(), NotifyOp(note, next));
      panicked := Dispatch(note, next);
    }

    /** Every notification is handled, except that a heartbeat answer too short to be read panics. */
    method Notification(note: TxNotification, next: nat) returns (panicked: bool)
      requires Valid() && Clean(NotifyOp(note, next))
      modifies this, primaryCongestion, srtt
      ensures Valid() && State() == Notify(old(State()), note, next) && (panicked <==> IsShortBeat(note))
    {
      if note.PeerSAck? {
        HandleSack(note.sack, note.at);
        panicked := false;
      } else {
        panicked := NotifyOther(note, next);
      }
    }

    method PollSignalToSend(limit: nat, alreadyPacked: nat, now: nat) returns (result: PollResult<Chunk>)
      requires Valid()
      modifies this
      ensures Valid() && (State(), result) == PollSignal(old(State()), limit, alreadyPacked, now)
    {
      SoundStep(State(), PollSignalOp(limit, alreadyPacked, now));
      var room := Min(limit, pmtu - Min(pmtu, alreadyPacked));
      if |sendNext| > 0 {
        var front := sendNext[0];
        if SerializedSize(front) <= room {
          sendNext := sendNext[1..];
          return Polled(front);
        }
        if front.HeartBeatChunk? && alreadyPacked == 0 {
          sendNext := sendNext[1..];
          return Polled(front);
        }
        return Nothing;
      }
      match shutdownState
      case Some(TryingTo) =>
        if |resendQueue| == 0 && |outQueue| == 0 {
          shutdownState := Some(ShutdownSent);
          SetShutdownRtoTimeout(now);
          result := Polled(ShutDown(peerLastAckedTsn));
        } else {
          result := Nothing;
        }
      case Some(ShutdownReceived) =>
        if |resendQueue| == 0 && |outQueue| == 0 {
          shutdownState := Some(ShutdownAckSent);
          SetShutdownRtoTimeout(now);
          result := Polled(ShutDownAck);
        } else {
          result := Nothing;
        }
      case Some(AbortReceived) => result := Ended;
      case Some(Complete) => result := Ended;
      case _ => result := Nothing;
    }
  }
}
