/** The receiver against the list of all chunks the sender ever assigned a TSN to: which of them it has
    accepted, what it has reassembled from them, and what one arrival changes. */
module RxTracking {
  import opened Basics
  import opened SerialNumber
  import opened Chunks
  import opened Messages
  import opened RxModel
  import opened RxConservation

  /** Chunk `i` carries the `i`-th TSN; no two messages are interleaved. */
  ghost predicate History(hist: seq<DataChunk>, init: u32) {
    && (forall i :: 0 <= i < |hist| ==> hist[i].tsn == At(init, i))
    && Coherent(hist)
  }

  ghost predicate ValidStreams(r: RxState, hist: seq<DataChunk>) {
    forall i :: 0 <= i < |hist| ==> hist[i].streamId < |r.streams|
  }

  /** `d` is the chunk of the history that lies `Offset` ahead of the next TSN, and at least `lo` ahead. */
  ghost predicate FromHistory(hist: seq<DataChunk>, init: u32, n: nat, lo: nat, d: DataChunk) {
    var o := Offset(At(init, n), d.tsn);
    lo <= o <= TSN_RADIUS && n + o < |hist| && d == hist[n + o]
  }

  ghost predicate Ascending(base: u32, cs: seq<DataChunk>) {
    forall j, k :: 0 <= j < k < |cs| ==> Offset(base, cs[j].tsn) < Offset(base, cs[k].tsn)
  }

  /** `n` chunks were taken in order, and the reorder buffer lists later chunks of the history by TSN. */
  ghost predicate Tracks(r: RxState, hist: seq<DataChunk>, init: u32, n: nat, lo: nat) {
    && n <= |hist| && Increase(r.tsnCounter) == At(init, n)
    && (forall d :: d in r.reorder ==> FromHistory(hist, init, n, lo, d))
    && Ascending(At(init, n), r.reorder)
  }

  /** Chunk `i` of the history has been accepted, in order or into the reorder buffer. */
  ghost predicate IsAccepted(r: RxState, init: u32, n: nat, i: int) {
    i < n || (i - n <= TSN_RADIUS && Contains(r.reorder, At(init, i)))
  }

  function MessagesOf(es: seq<Event>): seq<Message> {
    seq(|es|, i requires 0 <= i < |es| => Message(es[i].stream, es[i].ppid, es[i].unordered, Payload(es[i].data)))
  }

  /** The only fragments waiting for reassembly are those of the unfinished message. */
  ghost predicate Reassembling(streams: seq<Reassembly>, tail: seq<DataChunk>) {
    forall s :: 0 <= s < |streams| ==>
      streams[s] == if tail != [] && tail[0].streamId == s then map[tail[0].seqNum := tail] else map[]
  }

  /** Messages already handed to the application and messages waiting for it are, together, those that
      the first `n` chunks complete. */
  ghost predicate Delivers(r: RxState, hist: seq<DataChunk>, n: nat, ordered: seq<Message>, unordered: seq<Message>)
    requires n <= |hist|
  {
    && Reassembling(r.streams, Tail(hist[..n]))
    && ordered + MessagesOf(r.ordered) == Select(Completed(hist[..n]), false)
    && unordered + MessagesOf(r.unordered) == Select(Completed(hist[..n]), true)
  }

  /** One more completed message joins the waiting messages of its kind, and leaves the other kind alone. */
  lemma {:induction false} WaitingSnoc(handed: seq<Message>, waiting: seq<Event>, ms: seq<Message>, e: Event,
                                       unordered: bool)
    requires handed + MessagesOf(waiting) == Select(ms, unordered)
    ensures var m := Message(e.stream, e.ppid, e.unordered, Payload(e.data));
      handed + MessagesOf(if e.unordered == unordered then waiting + [e] else waiting) == Select(ms + [m], unordered)
  {}

  /** The fragments of the unfinished message are what the stream has stored for it. */
  lemma {:induction false} PiecesAreTail(r: RxState, before: seq<DataChunk>, d: DataChunk)
    requires KnownStream(r, d) && Continues(Tail(before), d) && Reassembling(r.streams, Tail(before))
    ensures Pieces(r.streams[d.streamId], d) == Tail(before) + [d]
  {}

  lemma {:induction false} AcceptReassembles(r: RxState, before: seq<DataChunk>, d: DataChunk)
    requires KnownStream(r, d) && Continues(Tail(before), d) && Reassembling(r.streams, Tail(before))
    ensures Reassembling(Accept(r, d).streams, Tail(before + [d]))
  {
    Snoc(before, d);
    PiecesAreTail(r, before, d);
    var a, tail := Accept(r, d), Tail(before);
    forall s | 0 <= s < |a.streams|
      ensures a.streams[s] ==
        if !d.end && d.streamId == s then map[d.seqNum := tail + [d]] else map[]
    {
      if s == d.streamId {
        var q := r.streams[s];
        assert q == map[] || q == map[d.seqNum := tail];
        assert q[d.seqNum := tail + [d]] == map[d.seqNum := tail + [d]];
        assert q - {d.seqNum} == map[];
      }
    }
    if !d.end {
      assert (tail + [d])[0].seqNum == d.seqNum && (tail + [d])[0].streamId == d.streamId;
    }
  }

  lemma {:induction false} AcceptDelivers(r: RxState, hist: seq<DataChunk>, n: nat, ordered: seq<Message>,
                                          unordered: seq<Message>)
    requires n < |hist| && Coherent(hist) && KnownStream(r, hist[n])
    requires Delivers(r, hist, n, ordered, unordered)
    ensures Delivers(Accept(r, hist[n]), hist, n + 1, ordered, unordered)
  {
    var d, before := hist[n], hist[..n];
    var a := Accept(r, d);
    assert hist[..n + 1] == before + [d];
    AcceptReassembles(r, before, d);
    PiecesAreTail(r, before, d);
    Snoc(before, d);
    if d.end {
      var e := Event(d.streamId, d.ppid, d.unordered, Tail(before) + [d]);
      WaitingSnoc(ordered, r.ordered, Completed(before), e, false);
      WaitingSnoc(unordered, r.unordered, Completed(before), e, true);
    } else {
      assert Completed(before + [d]) == Completed(before);
    }
  }

  /** One step forward brings every later TSN one step closer. */
  lemma {:induction false} CloserByOne(init: u32, n: nat, t: u32)
    requires 1 <= Offset(At(init, n), t)
    ensures Offset(At(init, n + 1), t) == Offset(At(init, n), t) - 1
  {}

  lemma {:induction false} AcceptTracks(r: RxState, hist: seq<DataChunk>, init: u32, n: nat)
    requires Tracks(r, hist, init, n, 1) && n < |hist| && KnownStream(r, hist[n])
    ensures Tracks(Accept(r, hist[n]), hist, init, n + 1, 0)
  {
    AtStep(init, n);
    forall d | d in r.reorder ensures FromHistory(hist, init, n + 1, 0, d) {
      CloserByOne(init, n, d.tsn);
    }
    forall j, k | 0 <= j < k < |r.reorder|
      ensures Offset(At(init, n + 1), r.reorder[j].tsn) < Offset(At(init, n + 1), r.reorder[k].tsn)
    {
      assert r.reorder[j] in r.reorder && r.reorder[k] in r.reorder;
      CloserByOne(init, n, r.reorder[j].tsn);
      CloserByOne(init, n, r.reorder[k].tsn);
    }
  }

  /** The state after the first buffered chunk was taken. */
  function DrainOne(r: RxState): RxState
    requires NextIsBuffered(r)
  {
    TakeOne(PopFirst(r), r.reorder[0]).0
  }

  /** How many chunks were taken in order once `r`, which took `n`, is drained. */
  function DrainTo(r: RxState, n: nat): nat
    decreases |r.reorder|
  {
    if NextIsBuffered(r) then DrainTo(DrainOne(r), n + 1) else n
  }

  lemma {:induction false} PopTracks(r: RxState, hist: seq<DataChunk>, init: u32, n: nat)
    requires Tracks(r, hist, init, n, 0) && NextIsBuffered(r)
    ensures n < |hist| && r.reorder[0] == hist[n]
    ensures Tracks(PopFirst(r), hist, init, n, 1)
  {
    assert r.reorder[0] in r.reorder;
    forall d | d in r.reorder[1..] ensures FromHistory(hist, init, n, 1, d) {
      var k :| 0 <= k < |r.reorder[1..]| && r.reorder[1..][k] == d;
      assert r.reorder[k + 1] == d;
      assert d in r.reorder;
    }
  }

  lemma {:induction false} NoGapTracks(r: RxState, hist: seq<DataChunk>, init: u32, n: nat)
    requires Tracks(r, hist, init, n, 0) && !NextIsBuffered(r)
    ensures Tracks(r, hist, init, n, 1)
  {}

  /** Everything a receiver keeps up while it follows the history; `lo` as in `FromHistory`. */
  ghost predicate Follows(r: RxState, hist: seq<DataChunk>, init: u32, n: nat, lo: nat,
                          ordered: seq<Message>, unordered: seq<Message>) {
    && History(hist, init) && ValidStreams(r, hist) && Conserved(r)
    && Tracks(r, hist, init, n, lo) && Delivers(r, hist, n, ordered, unordered)
  }

  /** Bytes of the history that were not yet accepted: those not taken in order and not in the reorder buffer. */
  function Missing(r: RxState, hist: seq<DataChunk>, n: nat): int
    requires n <= |hist|
  {
    PayloadBytes(hist[n..]) - PayloadBytes(r.reorder)
  }

  lemma {:induction false} AcceptFollows(r: RxState, hist: seq<DataChunk>, init: u32, n: nat, ordered: seq<Message>,
                                         unordered: seq<Message>)
    requires Follows(r, hist, init, n, 1, ordered, unordered) && n < |hist| && Fits(r, hist[n])
    ensures KnownStream(r, hist[n])
    ensures var a := Accept(r, hist[n]);
      && Follows(a, hist, init, n + 1, 0, ordered, unordered)
      && Missing(a, hist, n + 1) == Missing(r, hist, n) - |hist[n].buf|
  {
    AcceptHolds(r, hist[n]);
    AcceptTracks(r, hist, init, n);
    AcceptDelivers(r, hist, n, ordered, unordered);
    assert hist[n..][1..] == hist[n + 1..];
    PayloadBytesHead(hist[n..]);
  }

  lemma {:induction false} PopFollows(r: RxState, hist: seq<DataChunk>, init: u32, n: nat, ordered: seq<Message>,
                                      unordered: seq<Message>)
    requires Follows(r, hist, init, n, 0, ordered, unordered) && NextIsBuffered(r)
    ensures n < |hist| && r.reorder[0] == hist[n]
    ensures Follows(PopFirst(r), hist, init, n, 1, ordered, unordered) && Fits(PopFirst(r), hist[n])
    ensures Missing(PopFirst(r), hist, n) == Missing(r, hist, n) + |hist[n].buf|
  {
    PopTracks(r, hist, init, n);
    PayloadBytesHead(r.reorder);
  }

  lemma {:induction false} DrainOneFollows(r: RxState, hist: seq<DataChunk>, init: u32, n: nat, ordered: seq<Message>,
                                           unordered: seq<Message>)
    requires Follows(r, hist, init, n, 0, ordered, unordered) && NextIsBuffered(r)
    ensures Follows(DrainOne(r), hist, init, n + 1, 0, ordered, unordered)
    ensures DrainOne(r).buffered == r.buffered
    ensures Missing(DrainOne(r), hist, n + 1) == Missing(r, hist, n)
  {
    PopFollows(r, hist, init, n, ordered, unordered);
    AcceptFollows(PopFirst(r), hist, init, n, ordered, unordered);
  }

  /** Draining takes, in order, chunks that were in the reorder buffer, loses none of them and stops at
      the first gap; it changes neither the buffered bytes nor the bytes still missing. */
  lemma {:induction false} DrainFollows(r: RxState, hist: seq<DataChunk>, init: u32, n: nat,
                                        ordered: seq<Message>, unordered: seq<Message>)
    requires Follows(r, hist, init, n, 0, ordered, unordered)
    ensures Follows(Drain(r), hist, init, DrainTo(r, n), 1, ordered, unordered)
    ensures Drain(r).buffered == r.buffered
    ensures Missing(Drain(r), hist, DrainTo(r, n)) == Missing(r, hist, n)
    decreases |r.reorder|
  {
    if NextIsBuffered(r) {
      DrainOneFollows(r, hist, init, n, ordered, unordered);
      DrainFollows(DrainOne(r), hist, init, n + 1, ordered, unordered);
    } else {
      NoGapTracks(r, hist, init, n);
    }
  }

  /** Draining neither adds to the accepted chunks nor gives one of them up. */
  lemma {:induction false} DrainKeepsAccepted(r: RxState, hist: seq<DataChunk>, init: u32, n: nat,
                                              ordered: seq<Message>, unordered: seq<Message>, i: int)
    requires Follows(r, hist, init, n, 0, ordered, unordered)
    ensures IsAccepted(Drain(r), init, DrainTo(r, n), i) <==> IsAccepted(r, init, n, i)
    decreases |r.reorder|
  {
    if !NextIsBuffered(r) {
    } else {
      DrainOneFollows(r, hist, init, n, ordered, unordered);
      DrainKeepsAccepted(DrainOne(r), hist, init, n + 1, ordered, unordered, i);
      DrainOneKeepsAccepted(r, hist, init, n, i);
    }
  }

  lemma {:induction false} DrainOneKeepsAccepted(r: RxState, hist: seq<DataChunk>, init: u32, n: nat, i: int)
    requires Tracks(r, hist, init, n, 0) && NextIsBuffered(r)
    ensures IsAccepted(DrainOne(r), init, n + 1, i) <==> IsAccepted(r, init, n, i)
  {
    assert DrainOne(r).reorder == r.reorder[1..];
    if n <= i && i - n <= TSN_RADIUS + 1 {
      OffsetAt(init, n, i);
      if Contains(r.reorder, At(init, i)) && i != n {
        var k :| 0 <= k < |r.reorder| && r.reorder[k].tsn == At(init, i);
        assert r.reorder[1..][k - 1] == r.reorder[k];
      }
      if Contains(r.reorder[1..], At(init, i)) {
        var k :| 0 <= k < |r.reorder[1..]| && r.reorder[1..][k].tsn == At(init, i);
        assert r.reorder[k + 1] == r.reorder[1..][k];
        assert r.reorder[k + 1] in r.reorder;
      }
    }
  }

  // ----- insertion into the reorder buffer -----

  /** Insertion keeps the buffer in TSN order and adds exactly the new chunk. */
  lemma {:induction false} InsertSorted(base: u32, cs: seq<DataChunk>, d: DataChunk)
    requires Ascending(base, cs) && !Contains(cs, d.tsn)
    requires Offset(base, d.tsn) <= TSN_RADIUS
    requires forall c :: c in cs ==> Offset(base, c.tsn) <= TSN_RADIUS
    ensures Ascending(base, Insert(cs, d))
    ensures forall c :: c in Insert(cs, d) <==> c == d || c in cs
    decreases |cs|
  {
    if cs == [] {
    } else {
      assert cs[0] in cs;
      CompareOffsets(base, d.tsn, cs[0].tsn);
      if TsnCompare(d.tsn, cs[0].tsn) == Less {
        AscendingCons(base, d, cs);
      } else {
        assert Offset(base, cs[0].tsn) < Offset(base, d.tsn);
        forall k | 0 <= k < |cs[1..]| ensures cs[1..][k].tsn != d.tsn {
          assert cs[k + 1] == cs[1..][k];
        }
        InsertSorted(base, cs[1..], d);
        forall c | c in Insert(cs[1..], d) ensures Offset(base, cs[0].tsn) < Offset(base, c.tsn) {
          if c in cs[1..] {
            var k :| 0 <= k < |cs[1..]| && cs[1..][k] == c;
            assert cs[k + 1] == c;
          }
        }
        AscendingCons(base, cs[0], Insert(cs[1..], d));
        assert cs == [cs[0]] + cs[1..];
      }
    }
  }

  lemma {:induction false} AscendingCons(base: u32, d: DataChunk, cs: seq<DataChunk>)
    requires Ascending(base, cs)
    requires cs != [] ==> Offset(base, d.tsn) < Offset(base, cs[0].tsn)
    ensures Ascending(base, [d] + cs)
  {}

  // ----- one arrival -----

  /** How many chunks were taken in order after `d` arrived. */
  function TakenAfter(r: RxState, d: DataChunk, n: nat): nat {
    if TsnCompare(d.tsn, Increase(r.tsnCounter)) == Equal && KnownStream(r, d) && Fits(r, d)
    then DrainTo(Accept(r, d), n + 1)
    else n
  }

  lemma {:induction false} DrainToGrows(r: RxState, n: nat)
    ensures n <= DrainTo(r, n)
    decreases |r.reorder|
  {
    if !NextIsBuffered(r) {
    } else {
      DrainToGrows(DrainOne(r), n + 1);
    }
  }

  /** Queueing an acknowledgement changes nothing of the above. */
  lemma {:induction false} QueueAckFollows(r: RxState, hist: seq<DataChunk>, init: u32, n: nat, ordered: seq<Message>,
                                           unordered: seq<Message>)
    requires Follows(r, hist, init, n, 1, ordered, unordered)
    ensures Follows(QueueAck(r), hist, init, n, 1, ordered, unordered)
  {}

  lemma {:induction false} StoreTracks(r: RxState, hist: seq<DataChunk>, init: u32, n: nat, i: nat)
    requires History(hist, init) && Tracks(r, hist, init, n, 1)
    requires i < |hist| && 1 <= i - n <= TSN_RADIUS && !Contains(r.reorder, hist[i].tsn)
    ensures Tracks(Store(r, hist[i]), hist, init, n, 1)
  {
    OffsetAt(init, n, i);
    InsertSorted(At(init, n), r.reorder, hist[i]);
  }

  lemma {:induction false} StoreFollows(r: RxState, hist: seq<DataChunk>, init: u32, n: nat, ordered: seq<Message>,
                                        unordered: seq<Message>, i: nat)
    requires Follows(r, hist, init, n, 1, ordered, unordered)
    requires i < |hist| && 1 <= i - n <= TSN_RADIUS && Fits(r, hist[i]) && !Contains(r.reorder, hist[i].tsn)
    ensures Follows(Store(r, hist[i]), hist, init, n, 1, ordered, unordered)
    ensures Store(r, hist[i]).buffered + Missing(Store(r, hist[i]), hist, n) == r.buffered + Missing(r, hist, n)
  {
    StoreTracks(r, hist, init, n, i);
    InsertHolds(r.reorder, hist[i]);
  }

  lemma {:induction false} InOrderFollows(r: RxState, hist: seq<DataChunk>, init: u32, n: nat, ordered: seq<Message>,
                                          unordered: seq<Message>)
    requires Follows(r, hist, init, n, 1, ordered, unordered) && n < |hist| && Fits(r, hist[n])
    ensures KnownStream(r, hist[n])
    ensures var a := QueueAck(Drain(Accept(r, hist[n])));
      var m := DrainTo(Accept(r, hist[n]), n + 1);
      && n <= m && Follows(a, hist, init, m, 1, ordered, unordered)
      && a.buffered + Missing(a, hist, m) == r.buffered + Missing(r, hist, n)
  {
    AcceptFollows(r, hist, init, n, ordered, unordered);
    var a := Accept(r, hist[n]);
    DrainFollows(a, hist, init, n + 1, ordered, unordered);
    DrainToGrows(a, n + 1);
    QueueAckFollows(Drain(a), hist, init, DrainTo(a, n + 1), ordered, unordered);
  }

  /** After any chunk of the history arrives, once more or for the first time, the receiver still follows
      the history, and no byte is lost between "missing" and "buffered". */
  lemma {:induction false} ArrivalFollows(r: RxState, hist: seq<DataChunk>, init: u32, n: nat, ordered: seq<Message>,
                                          unordered: seq<Message>, i: nat)
    requires Follows(r, hist, init, n, 1, ordered, unordered)
    requires i < |hist| && -TSN_RADIUS <= i - n <= TSN_RADIUS
    ensures var a := HandleData(r, hist[i]);
      var m := TakenAfter(r, hist[i], n);
      && n <= m && Follows(a, hist, init, m, 1, ordered, unordered)
      && a.buffered + Missing(a, hist, m) == r.buffered + Missing(r, hist, n)
  {
    CompareAt(init, i, n);
    var d := hist[i];
    if i > n && !Contains(r.reorder, d.tsn) && Fits(r, d) {
      StoreFollows(r, hist, init, n, ordered, unordered, i);
      QueueAckFollows(Store(r, d), hist, init, n, ordered, unordered);
    } else if i == n && Fits(r, d) {
      InOrderFollows(r, hist, init, n, ordered, unordered);
    } else {
      assert HandleData(r, d) == r;
    }
  }

  /** The set of accepted chunks grows by exactly the arriving one, if there is room for it. */
  lemma {:induction false} ArrivalAccepts(r: RxState, hist: seq<DataChunk>, init: u32, n: nat, ordered: seq<Message>,
                                          unordered: seq<Message>, i: nat, j: nat)
    requires Follows(r, hist, init, n, 1, ordered, unordered)
    requires i < |hist| && -TSN_RADIUS <= i - n <= TSN_RADIUS
    ensures IsAccepted(HandleData(r, hist[i]), init, TakenAfter(r, hist[i], n), j)
      <==> IsAccepted(r, init, n, j) || (j == i && Fits(r, hist[i]))
  {
    CompareAt(init, i, n);
    var d := hist[i];
    if i > n {
      if !Contains(r.reorder, d.tsn) && Fits(r, d) {
        StoreAccepts(r, hist, init, n, i, j);
      }
    } else if i == n && Fits(r, d) {
      AcceptFollows(r, hist, init, n, ordered, unordered);
      DrainKeepsAccepted(Accept(r, d), hist, init, n + 1, ordered, unordered, j);
      AcceptAccepts(r, hist, init, n, j);
    }
  }

  lemma {:induction false} AcceptAccepts(r: RxState, hist: seq<DataChunk>, init: u32, n: nat, j: nat)
    requires Tracks(r, hist, init, n, 1) && n < |hist| && KnownStream(r, hist[n])
    ensures IsAccepted(Accept(r, hist[n]), init, n + 1, j) <==> IsAccepted(r, init, n, j) || j == n
  {
    if n < j && j - n <= TSN_RADIUS + 1 && Contains(r.reorder, At(init, j)) {
      var k :| 0 <= k < |r.reorder| && r.reorder[k].tsn == At(init, j);
      assert r.reorder[k] in r.reorder;
      OffsetAt(init, n, j);
    }
  }

  lemma {:induction false} StoreAccepts(r: RxState, hist: seq<DataChunk>, init: u32, n: nat, i: nat, j: nat)
    requires Tracks(r, hist, init, n, 1) && i < |hist| && 1 <= i - n <= TSN_RADIUS
    requires hist[i].tsn == At(init, i) && !Contains(r.reorder, hist[i].tsn)
    ensures IsAccepted(Store(r, hist[i]), init, n, j) <==> IsAccepted(r, init, n, j) || j == i
  {
    var d := hist[i];
    var cs := Insert(r.reorder, d);
    OffsetAt(init, n, i);
    InsertSorted(At(init, n), r.reorder, d);
    if n <= j && j - n <= TSN_RADIUS {
      OffsetAt(init, n, j);
      assert d in cs;
      if Contains(cs, At(init, j)) && j != i {
        var k :| 0 <= k < |cs| && cs[k].tsn == At(init, j);
        assert cs[k] in cs;
        assert cs[k] in r.reorder;
      }
      if Contains(r.reorder, At(init, j)) {
        var k :| 0 <= k < |r.reorder| && r.reorder[k].tsn == At(init, j);
        assert r.reorder[k] in r.reorder;
        assert r.reorder[k] in cs;
      }
    }
  }

  /** The TSN counter stands right before the first chunk that has not been accepted. */
  lemma {:induction false} CounterIsMaximal(r: RxState, hist: seq<DataChunk>, init: u32, n: nat)
    requires Tracks(r, hist, init, n, 1)
    ensures !IsAccepted(r, init, n, n)
    ensures forall i :: i < n ==> IsAccepted(r, init, n, i)
  {
    if Contains(r.reorder, At(init, n)) {
      var k :| 0 <= k < |r.reorder| && r.reorder[k].tsn == At(init, n);
      assert r.reorder[k] in r.reorder;
      OffsetAt(init, n, n);
    }
  }

  /** The message that a poll hands over, if it is of the given kind. */
  function Handed(result: PollDataResult, unordered: bool): seq<Message> {
    if result.Received? && result.event.unordered == unordered then MessagesOf([result.event]) else []
  }

  lemma {:induction false} PollDelivers(r: RxState, hist: seq<DataChunk>, n: nat, ordered: seq<Message>,
                                        unordered: seq<Message>)
    requires n <= |hist| && Delivers(r, hist, n, ordered, unordered)
    ensures var (p, result) := PollData(r);
      Delivers(p, hist, n, ordered + Handed(result, false), unordered + Handed(result, true))
  {
    var (p, result) := PollData(r);
    if result.Received? {
      var ms, got := Completed(hist[..n]), MessagesOf([result.event]);
      if r.unordered != [] {
        assert MessagesOf(r.unordered) == got + MessagesOf(p.unordered);
        SelectHas(ms, true, |unordered|);
        assert (unordered + MessagesOf(r.unordered))[|unordered|] == got[0];
        assert unordered + MessagesOf(r.unordered) == (unordered + got) + MessagesOf(p.unordered);
      } else {
        assert MessagesOf(r.ordered) == got + MessagesOf(p.ordered);
        SelectHas(ms, false, |ordered|);
        assert (ordered + MessagesOf(r.ordered))[|ordered|] == got[0];
        assert ordered + MessagesOf(r.ordered) == (ordered + got) + MessagesOf(p.ordered);
      }
    }
    assert ordered + [] == ordered && unordered + [] == unordered;
  }

  /** Polling hands over the oldest waiting message, unordered ones first. */
  lemma {:induction false} PollFollows(r: RxState, hist: seq<DataChunk>, init: u32, n: nat, ordered: seq<Message>,
                                       unordered: seq<Message>)
    requires Follows(r, hist, init, n, 1, ordered, unordered)
    ensures var (p, result) := PollData(r);
      && p.buffered <= r.buffered && p.reorder == r.reorder
      && Follows(p, hist, init, n, 1, ordered + Handed(result, false), unordered + Handed(result, true))
  {
    PollConserves(r);
    PollDelivers(r, hist, n, ordered, unordered);
  }

  lemma {:induction false} SelectHas(ms: seq<Message>, unordered: bool, k: nat)
    requires k < |Select(ms, unordered)|
    ensures Select(ms, unordered)[k].unordered == unordered
  {
    if ms != [] && k < |Select(ms[..|ms| - 1], unordered)| {
      SelectHas(ms[..|ms| - 1], unordered, k);
    }
  }

  lemma {:induction false} ExtendMissing(r: RxState, hist: seq<DataChunk>, n: nat, c: DataChunk)
    requires n <= |hist|
    ensures Missing(r, hist + [c], n) == Missing(r, hist, n) + |c.buf|
  {
    assert (hist + [c])[n..] == hist[n..] + [c];
    PayloadBytesConcat(hist[n..], [c]);
  }

  /** A longer history changes nothing for the receiver except that more is missing. */
  lemma {:induction false} ExtendFollows(r: RxState, hist: seq<DataChunk>, init: u32, n: nat, ordered: seq<Message>,
                                         unordered: seq<Message>, c: DataChunk)
    requires Follows(r, hist, init, n, 1, ordered, unordered)
    requires History(hist + [c], init) && c.streamId < |r.streams|
    ensures Follows(r, hist + [c], init, n, 1, ordered, unordered)
    ensures Missing(r, hist + [c], n) == Missing(r, hist, n) + |c.buf|
  {
    assert (hist + [c])[..n] == hist[..n];
    ExtendMissing(r, hist, n, c);
    forall d | d in r.reorder ensures FromHistory(hist + [c], init, n, 1, d) {
      assert FromHistory(hist, init, n, 1, d);
    }
  }

  // ----- what is missing, chunk by chunk -----

  /** Bytes of the chunks `n..m` whose index is not in the list. */
  function AbsentBytes(indices: seq<int>, hist: seq<DataChunk>, n: nat, m: nat): nat
    requires n <= m <= |hist|
  {
    if n == m then 0
    else AbsentBytes(indices, hist, n, m - 1) + (if m - 1 in indices then 0 else |hist[m - 1].buf|)
  }

  lemma {:induction false} AbsentSame(xs: seq<int>, ys: seq<int>, hist: seq<DataChunk>, n: nat, m: nat)
    requires n <= m <= |hist| && forall i :: n <= i < m ==> (i in xs <==> i in ys)
    ensures AbsentBytes(xs, hist, n, m) == AbsentBytes(ys, hist, n, m)
  {
    if n == m {
    } else {
      AbsentSame(xs, ys, hist, n, m - 1);
    }
  }

  lemma {:induction false} AbsentHas(indices: seq<int>, hist: seq<DataChunk>, n: nat, m: nat, i: nat)
    requires n <= i < m <= |hist| && i !in indices
    ensures |hist[i].buf| <= AbsentBytes(indices, hist, n, m)
    decreases m
  {
    if i == m - 1 {
    } else {
      AbsentHas(indices, hist, n, m - 1, i);
    }
  }

  /** Increasing indices within `n..m`. */
  ghost predicate Increasing(indices: seq<int>, n: nat, m: nat) {
    && (forall k :: 0 <= k < |indices| ==> n <= indices[k] < m)
    && (forall j, k :: 0 <= j < k < |indices| ==> indices[j] < indices[k])
  }

  function PickBytes(indices: seq<int>, hist: seq<DataChunk>): nat
    requires forall k :: 0 <= k < |indices| ==> 0 <= indices[k] < |hist|
  {
    if indices == [] then 0
    else PickBytes(indices[..|indices| - 1], hist) + |hist[indices[|indices| - 1]].buf|
  }

  lemma {:induction false} WithoutLast(indices: seq<int>, n: nat, m: nat)
    requires n < m && Increasing(indices, n, m) && m - 1 in indices
    ensures indices != [] && indices[|indices| - 1] == m - 1
    ensures Increasing(indices[..|indices| - 1], n, m - 1)
    ensures forall i :: n <= i < m - 1 ==> (i in indices <==> i in indices[..|indices| - 1])
  {}

  lemma {:induction false} OneMorePayload(hist: seq<DataChunk>, n: nat, m: nat)
    requires n < m <= |hist|
    ensures PayloadBytes(hist[n..m]) == PayloadBytes(hist[n..m - 1]) + |hist[m - 1].buf|
  {
    assert hist[n..m][..m - n - 1] == hist[n..m - 1];
  }

  /** If the last chunk is in the list, both sums do without it. */
  lemma {:induction false} LastIsPicked(indices: seq<int>, hist: seq<DataChunk>, n: nat, m: nat)
    requires n < m <= |hist| && Increasing(indices, n, m) && m - 1 in indices
    ensures indices != []
    ensures var front := indices[..|indices| - 1];
      && Increasing(front, n, m - 1)
      && AbsentBytes(indices, hist, n, m) == AbsentBytes(front, hist, n, m - 1)
      && PickBytes(indices, hist) == PickBytes(front, hist) + |hist[m - 1].buf|
  {
    WithoutLast(indices, n, m);
    AbsentSame(indices, indices[..|indices| - 1], hist, n, m - 1);
  }

  lemma {:induction false} LastIsAbsent(indices: seq<int>, hist: seq<DataChunk>, n: nat, m: nat)
    requires n < m <= |hist| && Increasing(indices, n, m) && m - 1 !in indices
    ensures Increasing(indices, n, m - 1)
    ensures AbsentBytes(indices, hist, n, m) == AbsentBytes(indices, hist, n, m - 1) + |hist[m - 1].buf|
  {
    forall k | 0 <= k < |indices| ensures n <= indices[k] < m - 1 {
      assert indices[k] in indices;
    }
  }

  lemma {:induction false} AbsentIsDifference(indices: seq<int>, hist: seq<DataChunk>, n: nat, m: nat)
    requires n <= m <= |hist| && Increasing(indices, n, m)
    ensures AbsentBytes(indices, hist, n, m) + PickBytes(indices, hist) == PayloadBytes(hist[n..m])
    decreases m
  {
    if n == m {
    } else {
      OneMorePayload(hist, n, m);
      if m - 1 in indices {
        LastIsPicked(indices, hist, n, m);
        AbsentIsDifference(indices[..|indices| - 1], hist, n, m - 1);
      } else {
        LastIsAbsent(indices, hist, n, m);
        AbsentIsDifference(indices, hist, n, m - 1);
      }
    }
  }

  /** The indices of the chunks in the reorder buffer. */
  function Indices(cs: seq<DataChunk>, init: u32, n: nat): seq<int> {
    seq(|cs|, k requires 0 <= k < |cs| => n + Offset(At(init, n), cs[k].tsn))
  }

  lemma {:induction false} PickIsPayload(indices: seq<int>, cs: seq<DataChunk>, hist: seq<DataChunk>)
    requires |cs| == |indices|
    requires forall k :: 0 <= k < |cs| ==> 0 <= indices[k] < |hist| && cs[k] == hist[indices[k]]
    ensures PickBytes(indices, hist) == PayloadBytes(cs)
  {
    if cs == [] {
    } else {
      PickIsPayload(indices[..|cs| - 1], cs[..|cs| - 1], hist);
    }
  }

  /** Bytes of the chunks that were sent but not yet accepted, counted chunk by chunk. */
  function UnacceptedBytes(r: RxState, hist: seq<DataChunk>, init: u32, n: nat): nat
    requires n <= |hist|
  {
    AbsentBytes(Indices(r.reorder, init, n), hist, n, |hist|)
  }

  lemma {:induction false} IndicesAreAccepted(r: RxState, hist: seq<DataChunk>, init: u32, n: nat, i: nat)
    requires Tracks(r, hist, init, n, 1) && n <= i < |hist|
    ensures i in Indices(r.reorder, init, n) <==> IsAccepted(r, init, n, i)
  {
    var indices := Indices(r.reorder, init, n);
    if i in indices {
      var k :| 0 <= k < |indices| && indices[k] == i;
      assert r.reorder[k] in r.reorder;
      assert Offset(At(init, n), r.reorder[k].tsn) == i - n;
      OffsetAt(init, n, i);
    }
    if IsAccepted(r, init, n, i) {
      var k :| 0 <= k < |r.reorder| && r.reorder[k].tsn == At(init, i);
      OffsetAt(init, n, i);
      assert indices[k] == i;
    }
  }

  lemma {:induction false} IndicesPick(r: RxState, hist: seq<DataChunk>, init: u32, n: nat)
    requires Tracks(r, hist, init, n, 1)
    ensures var indices := Indices(r.reorder, init, n);
      && Increasing(indices, n, |hist|)
      && forall k :: 0 <= k < |r.reorder| ==> r.reorder[k] == hist[indices[k]]
  {
    var indices := Indices(r.reorder, init, n);
    forall k | 0 <= k < |r.reorder| ensures n <= indices[k] < |hist| && r.reorder[k] == hist[indices[k]] {
      assert r.reorder[k] in r.reorder;
    }
  }

  lemma {:induction false} MissingIsUnaccepted(r: RxState, hist: seq<DataChunk>, init: u32, n: nat)
    requires Tracks(r, hist, init, n, 1)
    ensures UnacceptedBytes(r, hist, init, n) == Missing(r, hist, n)
  {
    var indices := Indices(r.reorder, init, n);
    IndicesPick(r, hist, init, n);
    PickIsPayload(indices, r.reorder, hist);
    assert hist[n..|hist|] == hist[n..];
    AbsentIsDifference(indices, hist, n, |hist|);
  }
}
