/** Packets that make an endpoint queue something that has no implementation: a chunk that cannot be serialized, or a
    kind of chunk that a receiver cannot be given. Both end in a panic once the queue is served. */
module Unimplemented {
  import opened Basics
  import opened BigEndian
  import opened Chunks
  import opened Endpoint
  import ES = EndpointSafety
  import RxModel
  import opened Wire

  type Items = seq<Result<Chunk, ChunkError>>

  type SendQueue = seq<(TransportAddress, Header, Chunk)>

  // ----- the queues -----

  /** Serializing it, or asking for its size, is implemented. */
  predicate HasWireForm(c: Chunk) { !c.OpError? && !c.ReservedEcne? && !c.ReservedCwr? }

  predicate Serializable(queue: SendQueue) { forall i :: 0 <= i < |queue| ==> HasWireForm(queue[i].2) }

  predicate Understood(notes: seq<(nat, Chunk)>) { forall i :: 0 <= i < |notes| ==> RxModel.IsImplemented(notes[i].1) }

  /** Everything that waits can be sent, and handled. */
  predicate Harmless(s: State) { Serializable(s.sendImmediate) && Understood(s.rxNotes) }

  // ----- the packets -----

  /** A chunk of an unknown type that asks for a report. */
  predicate AsksForReport(item: Result<Chunk, ChunkError>) {
    item.Err? && item.error.Unrecognized? && item.error.report
  }

  /** A chunk of a known type that an association has no use for. */
  predicate IsMisplaced(item: Result<Chunk, ChunkError>) {
    item.Ok? && (item.value.OpError? || item.value.ReservedEcne? || item.value.ReservedCwr?
                 || item.value.StateCookieChunk? || item.value.StateCookieAck?)
  }

  predicate IsAbort(item: Result<Chunk, ChunkError>) { item.Ok? && item.value.Abort? }

  predicate Aborts(items: Items) { exists i :: 0 <= i < |items| && IsAbort(items[i]) }

  predicate Reports(items: Items) { exists i :: 0 <= i < |items| && AsksForReport(items[i]) }

  predicate Misplaces(items: Items) { exists i :: 0 <= i < |items| && IsMisplaced(items[i]) }

  // ----- one chunk -----

  lemma {:induction false} OneMoreSend(queue: SendQueue, entry: (TransportAddress, Header, Chunk))
    ensures Serializable(queue + [entry]) <==> Serializable(queue) && HasWireForm(entry.2)
  {
    assert (queue + [entry])[|queue|] == entry;
    assert forall i :: 0 <= i < |queue| ==> (queue + [entry])[i] == queue[i];
  }

  lemma {:induction false} OneMoreNote(notes: seq<(nat, Chunk)>, note: (nat, Chunk))
    ensures Understood(notes + [note]) <==> Understood(notes) && RxModel.IsImplemented(note.1)
  {
    assert (notes + [note])[|notes|] == note;
    assert forall i :: 0 <= i < |notes| ==> (notes + [note])[i] == notes[i];
  }

  /** Chunks that the endpoint itself neither answers nor drops. */
  predicate IsForwarded(item: Result<Chunk, ChunkError>) {
    item.Ok? && !item.value.Init? && !item.value.InitAckChunk? && !item.value.HeartBeatChunk? && !item.value.Padding?
  }

  /** What one chunk adds to the two queues. */
  lemma {:induction false} ChunkAdds(s: State, id: nat, from: TransportAddress, p: Header, peerTag: u32,
                                     item: Result<Chunk, ChunkError>)
    requires !IsAbort(item)
    ensures var t := HandleChunk(s, id, from, p, peerTag, item);
      var to := Header(p.to, p.from, peerTag);
      && (if AsksForReport(item) then t.sendImmediate == s.sendImmediate + [(from, to, OpError)]
          else if item.Ok? && item.value.HeartBeatChunk?
          then t.sendImmediate == s.sendImmediate + [(from, to, HeartBeatAckChunk(item.value.beat))]
          else t.sendImmediate == s.sendImmediate)
      && t.rxNotes == if IsForwarded(item) then s.rxNotes + [(id, item.value)] else s.rxNotes
  {}

  lemma {:induction false} OneChunk(s: State, id: nat, from: TransportAddress, p: Header, peerTag: u32,
                                    item: Result<Chunk, ChunkError>)
    requires !IsAbort(item)
    ensures var t := HandleChunk(s, id, from, p, peerTag, item);
      && (Serializable(t.sendImmediate) <==> Serializable(s.sendImmediate) && !AsksForReport(item))
      && (Understood(t.rxNotes) <==> Understood(s.rxNotes) && !IsMisplaced(item))
  {
    var to := Header(p.to, p.from, peerTag);
    ChunkAdds(s, id, from, p, peerTag, item);
    if AsksForReport(item) {
      OneMoreSend(s.sendImmediate, (from, to, OpError));
    } else if item.Ok? {
      if item.value.HeartBeatChunk? {
        OneMoreSend(s.sendImmediate, (from, to, HeartBeatAckChunk(item.value.beat)));
      }
      OneMoreNote(s.rxNotes, (id, item.value));
      assert IsMisplaced(item) <==> IsForwarded(item) && !RxModel.IsImplemented(item.value);
    }
  }

  // ----- an ABORT removes what the same packet queued -----

  /** Everything in the queue that cannot be serialized is for the peer that sent the packet. */
  predicate OwnSends(queue: SendQueue, from: TransportAddress, p: Header) {
    forall i :: 0 <= i < |queue| ==> HasWireForm(queue[i].2) || BelongsTo(queue[i], from, p)
  }

  predicate OwnNotes(notes: seq<(nat, Chunk)>, id: nat) {
    forall i :: 0 <= i < |notes| ==> RxModel.IsImplemented(notes[i].1) || notes[i].0 == id
  }

  lemma {:induction false} SendsAreRemoved(queue: SendQueue, from: TransportAddress, p: Header)
    requires OwnSends(queue, from, p)
    ensures Serializable(SendsWithout(queue, from, p))
  {
    if queue == [] {
    } else {
      assert OwnSends(queue[1..], from, p);
      SendsAreRemoved(queue[1..], from, p);
    }
  }

  lemma {:induction false} NotesAreRemoved(notes: seq<(nat, Chunk)>, id: nat)
    requires OwnNotes(notes, id)
    ensures Understood(NotesWithout(notes, id))
  {
    if notes == [] {
    } else {
      assert OwnNotes(notes[1..], id);
      NotesAreRemoved(notes[1..], id);
    }
  }

  lemma {:induction false} AbortRemoves(s: State, id: nat, from: TransportAddress, p: Header, abort: Chunk)
    requires OwnSends(s.sendImmediate, from, p) && OwnNotes(s.rxNotes, id) && abort.Abort?
    ensures Harmless(Aborted(s, id, from, p, abort))
  {
    SendsAreRemoved(s.sendImmediate, from, p);
    NotesAreRemoved(s.rxNotes, id);
  }

  lemma {:induction false} ChunkIsOwn(s: State, id: nat, from: TransportAddress, p: Header, peerTag: u32,
                                      item: Result<Chunk, ChunkError>)
    requires OwnSends(s.sendImmediate, from, p) && OwnNotes(s.rxNotes, id)
    ensures var t := HandleChunk(s, id, from, p, peerTag, item);
      OwnSends(t.sendImmediate, from, p) && OwnNotes(t.rxNotes, id)
  {}

  lemma {:induction false} AbortedIsHarmless(s: State, id: nat, from: TransportAddress, p: Header, peerTag: u32,
                                             items: Items)
    requires OwnSends(s.sendImmediate, from, p) && OwnNotes(s.rxNotes, id) && Aborts(items)
    ensures Harmless(HandleChunks(s, id, from, p, peerTag, items))
    decreases items
  {
    if IsAbort(items[0]) {
      AbortRemoves(s, id, from, p, items[0].value);
    } else {
      ChunkIsOwn(s, id, from, p, peerTag, items[0]);
      var i :| 0 <= i < |items| && IsAbort(items[i]);
      assert IsAbort(items[1..][i - 1]);
      AbortedIsHarmless(HandleChunk(s, id, from, p, peerTag, items[0]), id, from, p, peerTag, items[1..]);
    }
  }

  // ----- all chunks of a packet -----

  lemma {:induction false} FirstOrRest(items: Items)
    requires items != []
    ensures Aborts(items) <==> IsAbort(items[0]) || Aborts(items[1..])
    ensures Reports(items) <==> AsksForReport(items[0]) || Reports(items[1..])
    ensures Misplaces(items) <==> IsMisplaced(items[0]) || Misplaces(items[1..])
  {
    assert forall i :: 0 < i < |items| ==> items[i] == items[1..][i - 1];
  }

  lemma {:induction false} WithoutAbort(s: State, id: nat, from: TransportAddress, p: Header, peerTag: u32,
                                        items: Items)
    requires !Aborts(items)
    ensures var t := HandleChunks(s, id, from, p, peerTag, items);
      && (Serializable(t.sendImmediate) <==> Serializable(s.sendImmediate) && !Reports(items))
      && (Understood(t.rxNotes) <==> Understood(s.rxNotes) && !Misplaces(items))
    decreases items
  {
    if items == [] {
    } else {
      FirstOrRest(items);
      OneChunk(s, id, from, p, peerTag, items[0]);
      WithoutAbort(HandleChunk(s, id, from, p, peerTag, items[0]), id, from, p, peerTag, items[1..]);
    }
  }

  lemma {:induction false} ChunksExactly(s: State, id: nat, from: TransportAddress, p: Header, peerTag: u32,
                                         items: Items)
    requires Harmless(s)
    ensures var t := HandleChunks(s, id, from, p, peerTag, items);
      && (Serializable(t.sendImmediate) <==> Aborts(items) || !Reports(items))
      && (Understood(t.rxNotes) <==> Aborts(items) || !Misplaces(items))
  {
    if Aborts(items) {
      AbortedIsHarmless(s, id, from, p, peerTag, items);
    } else {
      WithoutAbort(s, id, from, p, peerTag, items);
    }
  }

  // ----- whole packets -----

  /** What is left of a packet behind the chunks of the handshake, the association it is for, and the state then. */
  datatype Delivery = Delivery(state: State, id: nat, rest: Bytes)

  function Deliver(s: State, hash: (Cookie, Bytes) -> u64, p: Header, data: Bytes, from: TransportAddress)
    : Option<Delivery>
  {
    if StartsWith(data, CHUNK_INIT) || StartsWith(data, CHUNK_INIT_ACK) then None
    else
      var (t, echo, more) := HandleCookieEcho(s, hash, p, data, from);
      if echo.Panicked? || echo.Error? then None
      else
        var (u, ack, rest) := HandleCookieAck(t, p, more, from);
        if ack.Error? then None
        else
          match Addressee(u, echo, ack, AliasOf(from, p))
          case None => None
          case Some(id) => Some(Delivery(u, id, rest))
  }

  /** The packet reaches an association and names its verification tag, and nothing in it aborts the association. */
  predicate IsHandled(d: Option<Delivery>, tag: u32) {
    && d.Some? && d.value.id in d.value.state.assocInfos && d.value.state.assocInfos[d.value.id].localTag == tag
    && !Aborts(Scan(d.value.rest))
  }

  lemma {:induction false} OpeningIsHarmless(s: State, hash: (Cookie, Bytes) -> u64, p: Header, data: Bytes,
                                             from: TransportAddress, tag: u32, tsn: u32)
    requires Harmless(s)
    ensures Harmless(HandleInit(s, hash, p, data, from, tag, tsn).0) && Harmless(HandleInitAck(s, p, data, from).0)
  {}

  lemma {:induction false} CookiesQueueNothing(s: State, hash: (Cookie, Bytes) -> u64, p: Header, data: Bytes,
                                               from: TransportAddress)
    ensures var t := HandleCookieEcho(s, hash, p, data, from).0;
      t.sendImmediate == s.sendImmediate && t.rxNotes == s.rxNotes
    ensures var t := HandleCookieAck(s, p, data, from).0;
      t.sendImmediate == s.sendImmediate && t.rxNotes == s.rxNotes
  {}

  lemma {:induction false} DeliveryIsProcessed(s: State, hash: (Cookie, Bytes) -> u64, p: Header, data: Bytes,
                                               from: TransportAddress, tag: u32, tsn: u32)
    ensures var t, d := Receive(s, hash, p, data, from, tag, tsn).0, Deliver(s, hash, p, data, from);
      d.Some? ==> t == ProcessChunks(d.value.state, d.value.id, from, p, d.value.rest)
  {}

  lemma {:induction false} DeliveryIsReceived(s: State, hash: (Cookie, Bytes) -> u64, p: Header, data: Bytes,
                                              from: TransportAddress, tag: u32, tsn: u32)
    requires Harmless(s)
    ensures var t, d := Receive(s, hash, p, data, from, tag, tsn).0, Deliver(s, hash, p, data, from);
      if d.None? then Harmless(t)
      else Harmless(d.value.state) && t == ProcessChunks(d.value.state, d.value.id, from, p, d.value.rest)
  {
    DeliveryIsProcessed(s, hash, p, data, from, tag, tsn);
    OpeningIsHarmless(s, hash, p, data, from, tag, tsn);
    CookiesQueueNothing(s, hash, p, data, from);
    if !StartsWith(data, CHUNK_INIT) && !StartsWith(data, CHUNK_INIT_ACK) {
      var (t, echo, more) := HandleCookieEcho(s, hash, p, data, from);
      CookiesQueueNothing(t, hash, p, more, from);
    }
  }

  /** For all packets: something that cannot be serialized enters the send queue exactly if the packet is handled for an
      association and a chunk of an unknown type asks for a report; and something that the receiver has no
      implementation for is queued for it exactly if the packet is handled and carries a chunk that is misplaced. */
  lemma {:induction false} UnimplementedExactly(s: State, hash: (Cookie, Bytes) -> u64, p: Header, data: Bytes,
                                                from: TransportAddress, tag: u32, tsn: u32)
    requires Harmless(s)
    ensures var t, d := Receive(s, hash, p, data, from, tag, tsn).0, Deliver(s, hash, p, data, from);
      && (!Serializable(t.sendImmediate) <==> IsHandled(d, p.tag) && Reports(Scan(d.value.rest)))
      && (!Understood(t.rxNotes) <==> IsHandled(d, p.tag) && Misplaces(Scan(d.value.rest)))
  {
    DeliveryIsReceived(s, hash, p, data, from, tag, tsn);
    var d := Deliver(s, hash, p, data, from);
    if d.Some? && d.value.id in d.value.state.assocInfos {
      ChunksExactly(d.value.state, d.value.id, from, p, d.value.state.assocInfos[d.value.id].peerTag,
                    Scan(d.value.rest));
    }
  }

  /** Outside the handshake: exactly if the packet names the tag of the association with its sender, carries no ABORT,
      and carries such a chunk. */
  lemma {:induction false} UnimplementedOutsideHandshake(s: State, hash: (Cookie, Bytes) -> u64, p: Header, data: Bytes,
                                                         from: TransportAddress, tag: u32, tsn: u32)
    requires Harmless(s) && OutsideHandshake(data)
    ensures var t := Receive(s, hash, p, data, from, tag, tsn).0;
      var handled := ES.TagMatches(s, p, from) && !Aborts(Scan(data));
      && (!Serializable(t.sendImmediate) <==> handled && Reports(Scan(data)))
      && (!Understood(t.rxNotes) <==> handled && Misplaces(Scan(data)))
  {
    UnimplementedExactly(s, hash, p, data, from, tag, tsn);
    assert Deliver(s, hash, p, data, from)
        == if AliasOf(from, p) in s.aliases then Some(Delivery(s, s.aliases[AliasOf(from, p)], data)) else None;
  }

  /** Four bytes are enough: an empty chunk of type 64. */
  lemma {:induction false} FourBytesAreEnough(s: State, hash: (Cookie, Bytes) -> u64, p: Header,
                                              from: TransportAddress, tag: u32, tsn: u32)
    requires Harmless(s) && ES.TagMatches(s, p, from)
    ensures !Serializable(Receive(s, hash, p, [64, 0, 0, 4], from, tag, tsn).0.sendImmediate)
  {
    var data: Bytes := [64, 0, 0, 4];
    assert data[2..] == Put(4, 2) + [];
    ReadPut16(4, []);
    assert ParseChunk(data).1 == Err(Unrecognized(true, true));
    assert Scan(data) == [Err(Unrecognized(true, true))];
    assert AsksForReport(Scan(data)[0]);
    UnimplementedOutsideHandshake(s, hash, p, data, from, tag, tsn);
  }
}
