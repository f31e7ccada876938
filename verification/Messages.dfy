/** User messages, and what a list of data chunks in TSN order says about them. */
module Messages {
  import opened Basics
  import opened Chunks

  datatype Message = Message(stream: u16, ppid: u32, unordered: bool, payload: Bytes)

  /** The payloads of the chunks, one after the other. */
  function Payload(cs: seq<DataChunk>): Bytes {
    if cs == [] then [] else Payload(cs[..|cs| - 1]) + cs[|cs| - 1].buf
  }

  /** The fragments after the last chunk that ends a message. */
  function Tail(cs: seq<DataChunk>): seq<DataChunk> {
    if cs == [] || cs[|cs| - 1].end then [] else Tail(cs[..|cs| - 1]) + [cs[|cs| - 1]]
  }

  function MessageOf(c: DataChunk, fragments: seq<DataChunk>): Message {
    Message(c.streamId, c.ppid, c.unordered, Payload(fragments))
  }

  /** The messages that the chunks complete, in order. */
  function Completed(cs: seq<DataChunk>): seq<Message> {
    if cs == [] then []
    else
      var before, c := cs[..|cs| - 1], cs[|cs| - 1];
      Completed(before) + (if c.end then [MessageOf(c, Tail(before) + [c])] else [])
  }

  /** The ordered messages, or the unordered ones. */
  function Select(ms: seq<Message>, unordered: bool): seq<Message> {
    if ms == [] then []
    else
      var m := ms[|ms| - 1];
      Select(ms[..|ms| - 1], unordered) + (if m.unordered == unordered then [m] else [])
  }

  lemma {:induction false} SelectPrefix(a: seq<Message>, b: seq<Message>, unordered: bool)
    ensures Select(a, unordered) <= Select(a + b, unordered)
  {
    if b == [] {
      assert a + b == a;
    } else {
      assert (a + b)[..|a + b| - 1] == a + b[..|b| - 1];
      SelectPrefix(a, b[..|b| - 1], unordered);
    }
  }

  lemma {:induction false} Snoc(cs: seq<DataChunk>, c: DataChunk)
    ensures Payload(cs + [c]) == Payload(cs) + c.buf
    ensures Tail(cs + [c]) == if c.end then [] else Tail(cs) + [c]
    ensures Completed(cs + [c]) == Completed(cs) + (if c.end then [MessageOf(c, Tail(cs) + [c])] else [])
  {}

  /** More chunks only add messages. */
  lemma {:induction false} CompletedPrefix(a: seq<DataChunk>, b: seq<DataChunk>)
    ensures Completed(a) <= Completed(a + b)
  {
    if b == [] {
      assert a + b == a;
    } else {
      AppendLast(a, b);
      Snoc(a + b[..|b| - 1], b[|b| - 1]);
      CompletedPrefix(a, b[..|b| - 1]);
    }
  }

  /** Two chunk lists that carry the same messages and leave the same bytes unfinished. */
  ghost predicate SameMeaning(x: seq<DataChunk>, y: seq<DataChunk>) {
    Completed(x) == Completed(y) && Payload(Tail(x)) == Payload(Tail(y))
  }

  /** Chunks that differ in nothing a receiver hands to the application. */
  predicate SameContent(c: DataChunk, d: DataChunk) {
    && c.streamId == d.streamId && c.ppid == d.ppid && c.unordered == d.unordered
    && c.buf == d.buf && c.end == d.end
  }

  lemma {:induction false} SameMeaningSnoc(x: seq<DataChunk>, y: seq<DataChunk>, c: DataChunk, d: DataChunk)
    requires SameMeaning(x, y) && SameContent(c, d)
    ensures SameMeaning(x + [c], y + [d])
  {}

  lemma {:induction false} SameMeaningExtends(x: seq<DataChunk>, y: seq<DataChunk>, b: seq<DataChunk>)
    requires SameMeaning(x, y)
    ensures SameMeaning(x + b, y + b)
  {
    if b == [] {
      AppendNothing(x);
      AppendNothing(y);
    } else {
      var front, last := b[..|b| - 1], b[|b| - 1];
      SameMeaningExtends(x, y, front);
      AppendLast(x, b);
      AppendLast(y, b);
      SameMeaningSnoc(x + front, y + front, last, last);
    }
  }

  /** Cutting a chunk in two, with only the second half marked as the end, changes no message. */
  lemma {:induction false} SplitKeepsMeaning(cs: seq<DataChunk>, c: DataChunk, first: DataChunk, rest: DataChunk)
    requires !first.end && SameContent(c, rest.(buf := c.buf)) && c.buf == first.buf + rest.buf
    ensures SameMeaning(cs + [c], cs + [first] + [rest])
  {
    var tail := Tail(cs);
    CutPayload(tail, c, first, rest);
    Snoc(cs, c);
    Snoc(cs, first);
    Snoc(cs + [first], rest);
    assert Completed(cs + [first]) == Completed(cs);
    assert Tail(cs + [first]) == tail + [first];
  }

  lemma {:induction false} CutPayload(tail: seq<DataChunk>, c: DataChunk, first: DataChunk, rest: DataChunk)
    requires c.buf == first.buf + rest.buf
    ensures Payload(tail + [c]) == Payload(tail + [first] + [rest])
  {}

  /** `c` belongs to the message whose fragments so far are `tail`. */
  predicate Continues(tail: seq<DataChunk>, c: DataChunk) {
    tail != [] ==>
      && c.streamId == tail[0].streamId && c.seqNum == tail[0].seqNum
      && c.ppid == tail[0].ppid && c.unordered == tail[0].unordered
  }

  /** Fragments of different messages are never interleaved. */
  ghost predicate Coherent(cs: seq<DataChunk>) {
    forall i :: 0 <= i < |cs| ==> Continues(Tail(cs[..i]), cs[i])
  }

  lemma {:induction false} CoherentSnoc(cs: seq<DataChunk>, c: DataChunk)
    requires Coherent(cs) && Continues(Tail(cs), c)
    ensures Coherent(cs + [c])
  {
    forall i | 0 <= i < |cs + [c]|
      ensures Continues(Tail((cs + [c])[..i]), (cs + [c])[i])
    {
      assert (cs + [c])[..i] == cs[..i];
      assert cs[..|cs|] == cs;
    }
  }

  // ----- a history and the queue behind it -----

  /** The queue holds the ends of messages only, and its front goes on where the history stopped. */
  ghost predicate Resumes(hist: seq<DataChunk>, queue: seq<DataChunk>) {
    && (forall i :: 0 <= i < |queue| ==> queue[i].end)
    && (if queue == [] then Tail(hist) == [] else Continues(Tail(hist), queue[0]))
  }

  lemma {:induction false} QueueEndsMessages(hist: seq<DataChunk>, queue: seq<DataChunk>)
    requires Resumes(hist, queue)
    ensures Tail(hist + queue) == []
  {}

  /** A new message at the end of the queue adds itself and nothing else. */
  lemma {:induction false} Enqueued(hist: seq<DataChunk>, queue: seq<DataChunk>, c: DataChunk)
    requires Resumes(hist, queue) && c.end
    ensures Resumes(hist, queue + [c])
    ensures Completed(hist + (queue + [c])) == Completed(hist + queue) + [MessageOf(c, [c])]
  {
    Reassociate(hist, queue, [c]);
    Snoc(hist + queue, c);
    QueueEndsMessages(hist, queue);
    AppendNothing([c]);
  }

  /** Moving the front of the queue to the history changes no message. */
  lemma {:induction false} SentWhole(hist: seq<DataChunk>, queue: seq<DataChunk>, sent: DataChunk)
    requires Resumes(hist, queue) && queue != [] && sent.end && SameContent(queue[0], sent)
    ensures Resumes(hist + [sent], queue[1..]) && Completed(hist + [sent] + queue[1..]) == Completed(hist + queue)
  {
    SameMeaningSnoc(hist, hist, queue[0], sent);
    SameMeaningExtends(hist + [queue[0]], hist + [sent], queue[1..]);
    AppendFirst(hist, queue);
    Snoc(hist, sent);
  }

  lemma {:induction false} FragmentResumes(hist: seq<DataChunk>, queue: seq<DataChunk>, sent: DataChunk,
                                           rest: DataChunk)
    requires Resumes(hist, queue) && queue != [] && !sent.end && rest.end
    requires rest == queue[0].(begin := rest.begin, buf := rest.buf)
    requires sent == queue[0].(tsn := sent.tsn, buf := sent.buf, end := sent.end)
    ensures Resumes(hist + [sent], [rest] + queue[1..])
  {}

  /** Moving a first piece of the front to the history changes no message. */
  lemma {:induction false} SentFragment(hist: seq<DataChunk>, queue: seq<DataChunk>, sent: DataChunk, rest: DataChunk)
    requires Resumes(hist, queue) && queue != [] && !sent.end && queue[0].buf == sent.buf + rest.buf
    requires SameContent(queue[0], rest.(buf := queue[0].buf))
    ensures Completed(hist + [sent] + ([rest] + queue[1..])) == Completed(hist + queue)
  {
    SplitKeepsMeaning(hist, queue[0], sent, rest);
    SameMeaningExtends(hist + [queue[0]], hist + [sent] + [rest], queue[1..]);
    AppendFirst(hist, queue);
    Reassociate(hist + [sent], [rest], queue[1..]);
  }
}
