/** What the chunks of a packet turn into: notes for the association, answers, or the end of the association. */
module PacketDispatch {
  import opened Basics
  import opened BigEndian
  import opened Chunks
  import opened Endpoint
  import ES = EndpointSafety
  import opened Unimplemented
  import opened Wire
  import opened WireRoundTrip

  // ----- what a packet says -----

  /** The chunks of a packet that are for the association, in order. */
  function NotesOf(items: Items, id: nat): seq<(nat, Chunk)> {
    if items == [] then []
    else (if IsForwarded(items[0]) then [(id, items[0].value)] else []) + NotesOf(items[1..], id)
  }

  /** The endpoint's own answer to a chunk: a heartbeat comes back, and an unknown chunk is reported if it asks for it.
      */
  function AnswerTo(item: Result<Chunk, ChunkError>): seq<Chunk> {
    if item.Ok? && item.value.HeartBeatChunk? then [HeartBeatAckChunk(item.value.beat)]
    else if AsksForReport(item) then [OpError]
    else []
  }

  function AnswersTo(items: Items): seq<Chunk> {
    if items == [] then [] else AnswerTo(items[0]) + AnswersTo(items[1..])
  }

  /** Answers as packets back to where the chunks came from. */
  function Addressed(answers: seq<Chunk>, from: TransportAddress, back: Header): SendQueue {
    seq(|answers|, i requires 0 <= i < |answers| => (from, back, answers[i]))
  }

  /** The state with notes and answers added, and nothing else changed. */
  function Queued(s: State, notes: seq<(nat, Chunk)>, answers: SendQueue): State {
    s.(rxNotes := s.rxNotes + notes, sendImmediate := s.sendImmediate + answers)
  }

  // ----- without an ABORT -----

  lemma {:induction false} ChunkQueues(s: State, id: nat, from: TransportAddress, p: Header, peerTag: u32,
                                       item: Result<Chunk, ChunkError>)
    requires !IsAbort(item)
    ensures HandleChunk(s, id, from, p, peerTag, item)
         == Queued(s, NotesOf([item], id), Addressed(AnswerTo(item), from, Header(p.to, p.from, peerTag)))
  {
    ChunkAdds(s, id, from, p, peerTag, item);
    AppendNothing(s.rxNotes);
    AppendNothing(s.sendImmediate);
    assert NotesOf([item], id) == if IsForwarded(item) then [(id, item.value)] else [];
  }

  lemma {:induction false} QueuedTwice(s: State, n1: seq<(nat, Chunk)>, a1: SendQueue, n2: seq<(nat, Chunk)>,
                                       a2: SendQueue)
    ensures Queued(Queued(s, n1, a1), n2, a2) == Queued(s, n1 + n2, a1 + a2)
  {
    Reassociate(s.rxNotes, n1, n2);
    Reassociate(s.sendImmediate, a1, a2);
  }

  lemma {:induction false} AddressedAppend(a: seq<Chunk>, b: seq<Chunk>, from: TransportAddress, back: Header)
    ensures Addressed(a + b, from, back) == Addressed(a, from, back) + Addressed(b, from, back)
  {}

  lemma {:induction false} FirstItem(items: Items, id: nat, from: TransportAddress, back: Header)
    requires items != []
    ensures NotesOf(items, id) == NotesOf([items[0]], id) + NotesOf(items[1..], id)
    ensures Addressed(AnswersTo(items), from, back)
         == Addressed(AnswerTo(items[0]), from, back) + Addressed(AnswersTo(items[1..]), from, back)
  {
    AddressedAppend(AnswerTo(items[0]), AnswersTo(items[1..]), from, back);
    assert [items[0]][1..] == [];
    AppendNothing(NotesOf([items[0]], id));
  }

  lemma {:induction false} ChunksQueue(s: State, id: nat, from: TransportAddress, p: Header, peerTag: u32, items: Items)
    requires !Aborts(items)
    ensures HandleChunks(s, id, from, p, peerTag, items)
         == Queued(s, NotesOf(items, id), Addressed(AnswersTo(items), from, Header(p.to, p.from, peerTag)))
    decreases items
  {
    var back := Header(p.to, p.from, peerTag);
    if items == [] {
      AppendNothing(s.rxNotes);
      AppendNothing(s.sendImmediate);
    } else {
      FirstOrRest(items);
      ChunkQueues(s, id, from, p, peerTag, items[0]);
      ChunksQueue(HandleChunk(s, id, from, p, peerTag, items[0]), id, from, p, peerTag, items[1..]);
      QueuedTwice(s, NotesOf([items[0]], id), Addressed(AnswerTo(items[0]), from, back), NotesOf(items[1..], id),
                  Addressed(AnswersTo(items[1..]), from, back));
      FirstItem(items, id, from, back);
    }
  }

  // ----- with an ABORT -----

  /** The elements that satisfy a condition, in order. */
  function Filter<T>(xs: seq<T>, keep: T -> bool): seq<T> {
    if xs == [] then [] else (if keep(xs[0]) then [xs[0]] else []) + Filter(xs[1..], keep)
  }

  lemma {:induction false} FilterAppend<T>(xs: seq<T>, ys: seq<T>, keep: T -> bool)
    ensures Filter(xs + ys, keep) == Filter(xs, keep) + Filter(ys, keep)
  {
    if xs == [] {
      AppendNothing(ys);
    } else {
      assert (xs + ys)[1..] == xs[1..] + ys;
      FilterAppend(xs[1..], ys, keep);
    }
  }

  lemma {:induction false} FilterNone<T>(xs: seq<T>, keep: T -> bool)
    requires forall i :: 0 <= i < |xs| ==> !keep(xs[i])
    ensures Filter(xs, keep) == []
  {
    if xs == [] {
    } else {
      FilterNone(xs[1..], keep);
    }
  }

  lemma {:induction false} NotesFilter<N>(notes: seq<(nat, N)>, id: nat)
    ensures NotesWithout(notes, id) == Filter(notes, (n: (nat, N)) => n.0 != id)
  {
    if notes == [] {
    } else {
      NotesFilter(notes[1..], id);
    }
  }

  lemma {:induction false} SendsFilter(queue: SendQueue, from: TransportAddress, p: Header)
    ensures SendsWithout(queue, from, p)
         == Filter(queue, (e: (TransportAddress, Header, Chunk)) => !BelongsTo(e, from, p))
  {
    if queue == [] {
    } else {
      SendsFilter(queue[1..], from, p);
    }
  }

  /** Nothing is left of the association but the note that it was aborted; nothing else is touched. */
  ghost predicate Gone(s: State, t: State, id: nat, from: TransportAddress, p: Header, abort: Chunk) {
    && t.assocInfos == s.assocInfos - {id}
    && t.aliases == (map a | a in s.aliases && s.aliases[a] != id :: s.aliases[a])
    && t.txNotes == Filter(s.txNotes, (n: (nat, TxNotification)) => n.0 != id)
    && t.rxNotes == Filter(s.rxNotes, (n: (nat, Chunk)) => n.0 != id) + [(id, abort)]
    && t.sendImmediate == Filter(s.sendImmediate, (e: (TransportAddress, Header, Chunk)) => !BelongsTo(e, from, p))
    && t == s.(assocInfos := t.assocInfos, aliases := t.aliases, txNotes := t.txNotes, rxNotes := t.rxNotes,
               sendImmediate := t.sendImmediate)
  }

  lemma {:induction false} AbortClears(s: State, id: nat, from: TransportAddress, p: Header, abort: Chunk)
    ensures Gone(s, Aborted(s, id, from, p, abort), id, from, p, abort)
  {
    NotesFilter(s.txNotes, id);
    NotesFilter(s.rxNotes, id);
    SendsFilter(s.sendImmediate, from, p);
  }

  lemma {:induction false} NotesAreFor(items: Items, id: nat)
    ensures forall i :: 0 <= i < |NotesOf(items, id)| ==> NotesOf(items, id)[i].0 == id
  {
    if items == [] {
    } else {
      NotesAreFor(items[1..], id);
    }
  }

  /** What the same packet queued before its ABORT goes with the rest. */
  lemma {:induction false} GoneWithQueued(s: State, t: State, id: nat, from: TransportAddress, p: Header, abort: Chunk,
                                          items: Items, back: Header)
    requires back.from == p.to && back.to == p.from
    requires Gone(Queued(s, NotesOf(items, id), Addressed(AnswersTo(items), from, back)), t, id, from, p, abort)
    ensures Gone(s, t, id, from, p, abort)
  {
    var notes, answers := NotesOf(items, id), Addressed(AnswersTo(items), from, back);
    var others := (n: (nat, Chunk)) => n.0 != id;
    var elsewhere := (e: (TransportAddress, Header, Chunk)) => !BelongsTo(e, from, p);
    NotesAreFor(items, id);
    FilterAppend(s.rxNotes, notes, others);
    FilterNone(notes, others);
    AppendNothing(Filter(s.rxNotes, others));
    FilterAppend(s.sendImmediate, answers, elsewhere);
    FilterNone(answers, elsewhere);
    AppendNothing(Filter(s.sendImmediate, elsewhere));
  }

  /** The first ABORT of a packet. */
  function FirstAbort(items: Items): (i: nat)
    requires Aborts(items)
    ensures i < |items| && IsAbort(items[i]) && !Aborts(items[..i])
  {
    if IsAbort(items[0]) then 0
    else
      assert items == [items[0]] + items[1..];
      assert Aborts(items[1..]) by {
        var i :| 0 <= i < |items| && IsAbort(items[i]);
        assert items[1..][i - 1] == items[i];
      }
      var i := FirstAbort(items[1..]);
      assert items[..i + 1] == [items[0]] + items[1..][..i];
      i + 1
  }

  lemma {:induction false} ChunksUpTo(s: State, id: nat, from: TransportAddress, p: Header, peerTag: u32, items: Items,
                                      i: nat)
    requires i < |items| && !Aborts(items[..i])
    ensures HandleChunks(s, id, from, p, peerTag, items)
         == HandleChunks(HandleChunks(s, id, from, p, peerTag, items[..i]), id, from, p, peerTag, items[i..])
    decreases i
  {
    if i == 0 {
      assert items[..0] == [] && items[0..] == items;
    } else {
      assert !IsAbort(items[..i][0]);
      assert items[..i][1..] == items[1..][..i - 1] && items[1..][i - 1..] == items[i..];
      FirstOrRest(items[..i]);
      ChunksUpTo(HandleChunk(s, id, from, p, peerTag, items[0]), id, from, p, peerTag, items[1..], i - 1);
    }
  }

  lemma {:induction false} ChunksAbort(s: State, id: nat, from: TransportAddress, p: Header, peerTag: u32, items: Items)
    requires Aborts(items)
    ensures Gone(s, HandleChunks(s, id, from, p, peerTag, items), id, from, p, items[FirstAbort(items)].value)
  {
    var i, back := FirstAbort(items), Header(p.to, p.from, peerTag);
    var before := HandleChunks(s, id, from, p, peerTag, items[..i]);
    ChunksUpTo(s, id, from, p, peerTag, items, i);
    ChunksQueue(s, id, from, p, peerTag, items[..i]);
    AbortClears(before, id, from, p, items[i].value);
    GoneWithQueued(s, Aborted(before, id, from, p, items[i].value), id, from, p, items[i].value, items[..i], back);
  }

  // ----- whole packets -----

  /** What the chunks `items` of a packet make of the state, for the association with this id. */
  ghost predicate Dispatched(s: State, t: State, id: nat, from: TransportAddress, p: Header, peerTag: u32,
                             items: Items) {
    if Aborts(items) then Gone(s, t, id, from, p, items[FirstAbort(items)].value)
    else t == Queued(s, NotesOf(items, id), Addressed(AnswersTo(items), from, Header(p.to, p.from, peerTag)))
  }

  lemma {:induction false} ChunksAreDispatched(s: State, id: nat, from: TransportAddress, p: Header, data: Bytes)
    ensures var t := ProcessChunks(s, id, from, p, data);
      if id in s.assocInfos && s.assocInfos[id].localTag == p.tag
      then Dispatched(s, t, id, from, p, s.assocInfos[id].peerTag, Scan(data))
      else t == s
  {
    if id in s.assocInfos {
      var peerTag, items := s.assocInfos[id].peerTag, Scan(data);
      if Aborts(items) {
        ChunksAbort(s, id, from, p, peerTag, items);
      } else {
        ChunksQueue(s, id, from, p, peerTag, items);
      }
    }
  }

  /** For all packets, also those with chunks of the handshake in front: what is left for an association whose tag the
      packet names is dispatched. */
  lemma {:induction false} RestIsDispatched(s: State, hash: (Cookie, Bytes) -> u64, p: Header, data: Bytes,
                                            from: TransportAddress, tag: u32, tsn: u32)
    requires var d := Deliver(s, hash, p, data, from);
      d.Some? && d.value.id in d.value.state.assocInfos && d.value.state.assocInfos[d.value.id].localTag == p.tag
    ensures var d := Deliver(s, hash, p, data, from).value;
      Dispatched(d.state, Receive(s, hash, p, data, from, tag, tsn).0, d.id, from, p, d.state.assocInfos[d.id].peerTag,
                 Scan(d.rest))
  {
    DeliveryIsProcessed(s, hash, p, data, from, tag, tsn);
    var d := Deliver(s, hash, p, data, from).value;
    ChunksAreDispatched(d.state, d.id, from, p, d.rest);
  }

  /** For all packets outside the handshake with the tag of an association: without an ABORT, the chunks for the
      association are queued for it in order, every heartbeat and every report is answered in order, and nothing else
      changes; with an ABORT, nothing is left of the association but that note. */
  lemma {:induction false} PacketIsDispatched(s: State, hash: (Cookie, Bytes) -> u64, p: Header, data: Bytes,
                                              from: TransportAddress, tag: u32, tsn: u32)
    requires OutsideHandshake(data) && ES.TagMatches(s, p, from)
    ensures var id := s.aliases[AliasOf(from, p)];
      Dispatched(s, Receive(s, hash, p, data, from, tag, tsn).0, id, from, p, s.assocInfos[id].peerTag, Scan(data))
  {
    assert Deliver(s, hash, p, data, from) == Some(Delivery(s, s.aliases[AliasOf(from, p)], data));
    RestIsDispatched(s, hash, p, data, from, tag, tsn);
  }

  // ----- over the wire -----

  /** The chunks that an association sends to its peer. */
  predicate ForAssociation(c: Chunk) {
    Plain(c) && (c.Data? || c.SAck? || c.ShutDown? || c.ShutDownAck? || c.ShutDownComplete? || c.HeartBeatAckChunk?)
  }

  function NotesFor(cs: seq<Chunk>, id: nat): seq<(nat, Chunk)> {
    seq(|cs|, i requires 0 <= i < |cs| => (id, cs[i]))
  }

  lemma {:induction false} AllAreForwarded(cs: seq<Chunk>, id: nat)
    requires forall i :: 0 <= i < |cs| ==> ForAssociation(cs[i])
    ensures NotesOf(AllOk(cs), id) == NotesFor(cs, id) && AnswersTo(AllOk(cs)) == [] && !Aborts(AllOk(cs))
  {
    if cs == [] {
    } else {
      AllAreForwarded(cs[1..], id);
      assert AllOk(cs)[1..] == AllOk(cs[1..]);
      assert NotesFor(cs, id) == [(id, cs[0])] + NotesFor(cs[1..], id);
    }
  }

  lemma {:induction false} FirstType(c: Chunk, rest: Bytes)
    requires ForAssociation(c)
    ensures OutsideHandshake(SerializeChunk(c) + rest)
  {}

  lemma {:induction false} NoAnswers(s: State, notes: seq<(nat, Chunk)>, from: TransportAddress, back: Header)
    ensures Queued(s, notes, Addressed([], from, back)) == s.(rxNotes := s.rxNotes + notes)
  {
    AppendNothing(s.sendImmediate);
  }

  /** Serialized chunks of the peer's association, received with the right tag, are queued for the association, all of
      them and in order, and nothing else changes. */
  lemma {:induction false} BytesReachAssociation(s: State, hash: (Cookie, Bytes) -> u64, p: Header, cs: seq<Chunk>,
                                                 from: TransportAddress, tag: u32, tsn: u32)
    requires ES.TagMatches(s, p, from) && forall i :: 0 <= i < |cs| ==> ForAssociation(cs[i])
    ensures Receive(s, hash, p, SerializeAll(cs), from, tag, tsn)
         == (s.(rxNotes := s.rxNotes + NotesFor(cs, s.aliases[AliasOf(from, p)])), false)
  {
    var id, data := s.aliases[AliasOf(from, p)], SerializeAll(cs);
    BodyRoundTrip(cs);
    AllAreForwarded(cs, id);
    if cs != [] {
      FirstType(cs[0], SerializeAll(cs[1..]));
    }
    PacketIsDispatched(s, hash, p, data, from, tag, tsn);
    ES.ReceivePanicsExactly(s, hash, p, data, from, tag, tsn);
    NoAnswers(s, NotesFor(cs, id), from, Header(p.to, p.from, s.assocInfos[id].peerTag));
  }

  // ----- unknown chunks -----

  /** The types that the parser knows. */
  predicate KnownType(typ: byte) { typ <= 14 || typ == 132 }

  /** Section 3.2 of RFC 9260: the highest bit of an unknown type says whether the rest of the packet is read, the next
      one whether the chunk is reported. */
  lemma {:induction false} UnknownTypeDecides(typ: byte, flags: byte, rest: Bytes)
    requires !KnownType(typ)
    ensures var items := Scan([typ, flags, 0, 4] + rest);
      && items != [] && (AsksForReport(items[0]) <==> 64 <= typ < 128 || 192 <= typ)
      && !IsForwarded(items[0]) && items[1..] == if typ >= 128 then Scan(rest) else []
  {
    var data: Bytes := [typ, flags, 0, 4] + rest;
    assert data[2..] == Put(4, 2) + rest;
    ReadPut16(4, rest);
    assert data[4..] == rest;
    assert ParseChunk(data) == (4, Err(UnknownChunk(typ)));
  }
}
