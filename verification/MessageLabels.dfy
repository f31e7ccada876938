/** How the chunks on the wire are labelled: stream, sequence number and flags of the message that they belong to. */
module MessageLabels {
  import opened Association
  import opened AssociationSteps
  import opened Basics
  import opened Chunks
  import opened Messages
  import opened SerialNumber
  import opened TxInvariants
  import opened TxModel

  // ----- what was accepted -----

  /** One call of the sending application that was accepted. */
  datatype Call = Call(data: Bytes, stream: u16, ppid: u32, immediate: bool, unordered: bool)

  function NewCalls(s: TxState, op: TxOp): seq<Call> {
    if op.TrySendOp? && TrySend(s, op.data, op.stream, op.ppid, op.immediate, op.unordered).1.None?
    then [Call(op.data, op.stream, op.ppid, op.immediate, op.unordered)]
    else []
  }

  function Calls(p: Pair, actions: seq<Action>): seq<Call> {
    if actions == [] then []
    else
      var before, a := actions[..|actions| - 1], actions[|actions| - 1];
      Calls(p, before) + (if a.AtSender? && CanHappen(RunPair(p, before), a) then NewCalls(RunPair(p, before).tx, a.op)
                          else [])
  }

  function MessagesOf(calls: seq<Call>): seq<Message> {
    seq(|calls|, i requires 0 <= i < |calls| =>
      Message(calls[i].stream, calls[i].ppid, calls[i].unordered, calls[i].data))
  }

  /** The number of ordered messages on a stream. */
  function OrderedOn(calls: seq<Call>, stream: u16): nat {
    if calls == [] then 0
    else
      var c := calls[|calls| - 1];
      OrderedOn(calls[..|calls| - 1], stream) + if c.stream == stream && !c.unordered then 1 else 0
  }

  lemma {:induction false} OrderedOnSnoc(calls: seq<Call>, c: Call, stream: u16)
    ensures OrderedOn(calls + [c], stream)
         == OrderedOn(calls, stream) + if c.stream == stream && !c.unordered then 1 else 0
  {
    assert (calls + [c])[..|calls|] == calls;
  }

  // ----- labels -----

  /** How many messages the chunks end. */
  function Ended(cs: seq<DataChunk>): nat {
    if cs == [] then 0 else Ended(cs[..|cs| - 1]) + if cs[|cs| - 1].end then 1 else 0
  }

  /** Whether the next chunk begins a message. */
  predicate AtBoundary(cs: seq<DataChunk>) { cs == [] || cs[|cs| - 1].end }

  /** A chunk of the `k`-th message: everything but TSN and payload follows from the messages accepted up to it. */
  predicate IsLabelled(calls: seq<Call>, k: nat, first: bool, c: DataChunk) {
    && k < |calls| && c.streamId == calls[k].stream && c.ppid == calls[k].ppid
    && c.immediate == calls[k].immediate && c.unordered == calls[k].unordered
    && c.seqNum == OrderedOn(calls[..k], c.streamId) % TWO16 && c.begin == first
  }

  predicate Labelled(calls: seq<Call>, cs: seq<DataChunk>) {
    cs == [] ||
    var before, c := cs[..|cs| - 1], cs[|cs| - 1];
    Labelled(calls, before) && IsLabelled(calls, Ended(before), AtBoundary(before), c)
  }

  lemma {:induction false} LabelledSnoc(calls: seq<Call>, cs: seq<DataChunk>, c: DataChunk)
    ensures Labelled(calls, cs + [c]) <==> Labelled(calls, cs) && IsLabelled(calls, Ended(cs), AtBoundary(cs), c)
    ensures Ended(cs + [c]) == Ended(cs) + if c.end then 1 else 0
    ensures AtBoundary(cs + [c]) == c.end
  {
    assert (cs + [c])[..|cs|] == cs;
  }

  /** What comes later is labelled the same if as many messages were ended before it. */
  lemma {:induction false} LabelledTail(calls: seq<Call>, x: seq<DataChunk>, y: seq<DataChunk>, q: seq<DataChunk>)
    requires Labelled(calls, x + q) && Labelled(calls, y) && Ended(x) == Ended(y) && AtBoundary(x) == AtBoundary(y)
    ensures Labelled(calls, y + q) && Ended(y + q) == Ended(x + q) && AtBoundary(y + q) == AtBoundary(x + q)
  {
    if q == [] {
      AppendNothing(x);
      AppendNothing(y);
    } else {
      var front, last := q[..|q| - 1], q[|q| - 1];
      AppendLast(x, q);
      AppendLast(y, q);
      LabelledSnoc(calls, x + front, last);
      LabelledSnoc(calls, y + front, last);
      LabelledTail(calls, x, y, front);
    }
  }

  lemma {:induction false} LabelledPrefix(calls: seq<Call>, x: seq<DataChunk>, q: seq<DataChunk>)
    requires Labelled(calls, x + q)
    ensures Labelled(calls, x)
  {
    if q == [] {
      AppendNothing(x);
    } else {
      AppendLast(x, q);
      LabelledPrefix(calls, x, q[..|q| - 1]);
    }
  }

  /** More accepted messages change no label. */
  lemma {:induction false} LabelledMore(calls: seq<Call>, more: seq<Call>, cs: seq<DataChunk>)
    requires Labelled(calls, cs)
    ensures Labelled(calls + more, cs)
  {
    if cs == [] {
    } else {
      var before := cs[..|cs| - 1];
      LabelledMore(calls, more, before);
      assert (calls + more)[..Ended(before)] == calls[..Ended(before)];
    }
  }

  // ----- what every operation keeps -----

  predicate AllEnd(q: seq<DataChunk>) { forall i :: 0 <= i < |q| ==> q[i].end }

  /** Every stream counter is the number of ordered messages accepted on its stream. */
  ghost predicate Counted(streams: seq<u16>, calls: seq<Call>) {
    forall s: u16 :: s < |streams| ==> streams[s] == OrderedOn(calls, s) % TWO16
  }

  /** Sent and queued chunks are labelled, and they end as many messages as were accepted. */
  ghost predicate LabelsMatch(hist: seq<DataChunk>, q: seq<DataChunk>, calls: seq<Call>) {
    Labelled(calls, hist + q) && Ended(hist + q) == |calls| && AtBoundary(hist + q) && AllEnd(q)
  }

  lemma {:induction false} EnqueueLabels(hist: seq<DataChunk>, q: seq<DataChunk>, calls: seq<Call>, c: DataChunk,
                                         call: Call)
    requires LabelsMatch(hist, q, calls) && IsLabelled(calls + [call], |calls|, true, c) && c.end
    ensures LabelsMatch(hist, q + [c], calls + [call])
  {
    LabelledMore(calls, [call], hist + q);
    LabelledSnoc(calls + [call], hist + q, c);
    Reassociate(hist, q, [c]);
  }

  lemma {:induction false} WholeLabels(hist: seq<DataChunk>, q: seq<DataChunk>, calls: seq<Call>, tsn: u32)
    requires LabelsMatch(hist, q, calls) && q != []
    ensures LabelsMatch(hist + [q[0].(tsn := tsn, end := true)], q[1..], calls)
  {
    var sent := q[0].(tsn := tsn, end := true);
    AppendFirst(hist, q);
    LabelledPrefix(calls, hist + [q[0]], q[1..]);
    LabelledSnoc(calls, hist, q[0]);
    LabelledSnoc(calls, hist, sent);
    LabelledTail(calls, hist + [q[0]], hist + [sent], q[1..]);
  }

  lemma {:induction false} FragmentLabels(hist: seq<DataChunk>, q: seq<DataChunk>, calls: seq<Call>, tsn: u32, k: nat)
    requires LabelsMatch(hist, q, calls) && q != [] && k <= |q[0].buf|
    ensures LabelsMatch(hist + [Fragment(q[0], tsn, k)], [Remainder(q[0], k)] + q[1..], calls)
  {
    var sent, rest := Fragment(q[0], tsn, k), Remainder(q[0], k);
    AppendFirst(hist, q);
    LabelledPrefix(calls, hist + [q[0]], q[1..]);
    LabelledSnoc(calls, hist, q[0]);
    LabelledSnoc(calls, hist, sent);
    LabelledSnoc(calls, hist + [sent], rest);
    LabelledTail(calls, hist + [q[0]], hist + [sent] + [rest], q[1..]);
    Reassociate(hist + [sent], [rest], q[1..]);
  }

  /** The chunk that an accepted call puts into the queue. */
  ghost predicate Queues(m: Move, calls: seq<Call>, added: seq<Call>) {
    if m.Enqueue? then |added| == 1 && m.chunk.end && IsLabelled(calls + added, |calls|, true, m.chunk)
    else added == []
  }

  lemma {:induction false} MoveLabels(hist: seq<DataChunk>, c: Core, m: Move, calls: seq<Call>, added: seq<Call>)
    requires CanMove(c, m) && !m.Forget? && LabelsMatch(hist, c.outQueue, calls) && Queues(m, calls, added)
    ensures LabelsMatch(hist + SentBy(c, m), Moved(c, m).outQueue, calls + added)
  {
    AppendNothing(hist);
    AppendNothing(calls);
    match m
    case Stay =>
    case Enqueue(chunk) =>
      assert added == [added[0]];
      EnqueueLabels(hist, c.outQueue, calls, chunk, added[0]);
    case SendWhole => WholeLabels(hist, c.outQueue, calls, c.tsnCounter);
    case SendFragment(k) => FragmentLabels(hist, c.outQueue, calls, c.tsnCounter, k);
  }

  // ----- the counters -----

  lemma {:induction false} OthersKeepStreams(s: TxState, op: TxOp)
    requires NewCalls(s, op) == []
    ensures Apply(s, op).streams == s.streams
  {
    match op
    case TrySendOp(_, _, _, _, _) =>
    case PollDataOp(limit, packed, now) => PollKeepsSignals(s, limit, packed, now);
    case PollSignalOp(_, _, _) =>
    case TimeoutOp(timeout, _) => RtoKeepsSignals(s, timeout.at);
    case NotifyOp(note, _) =>
      if note.PeerSAck? {
        SackKeepsSignals(s, note.sack, note.at);
      }
    case InitiateShutdownOp =>
  }

  lemma {:induction false} OneMoreModulo(n: nat)
    ensures IncreaseSequence(n % TWO16) == (n + 1) % TWO16
  {}

  /** An accepted call takes the number of its stream, and an ordered one moves the counter on. */
  lemma {:induction false} CallTakesNumber(s: TxState, op: TxOp, calls: seq<Call>)
    requires op.TrySendOp? && NewCalls(s, op) != [] && Counted(s.streams, calls)
    ensures Queues(MoveOf(s, op), calls, NewCalls(s, op)) && MoveOf(s, op).Enqueue?
    ensures Counted(Apply(s, op).streams, calls + NewCalls(s, op))
  {
    var call := Call(op.data, op.stream, op.ppid, op.immediate, op.unordered);
    assert (calls + [call])[..|calls|] == calls;
    OneMoreModulo(OrderedOn(calls, op.stream));
    forall x: u16 | x < |s.streams| ensures Apply(s, op).streams[x] == OrderedOn(calls + [call], x) % TWO16 {
      OrderedOnSnoc(calls, call, x);
    }
  }

  lemma {:induction false} CallStep(s: TxState, op: TxOp, calls: seq<Call>)
    requires Counted(s.streams, calls)
    ensures Queues(MoveOf(s, op), calls, NewCalls(s, op)) && Counted(Apply(s, op).streams, calls + NewCalls(s, op))
  {
    if NewCalls(s, op) == [] {
      OthersKeepStreams(s, op);
      AppendNothing(calls);
    } else {
      CallTakesNumber(s, op, calls);
    }
  }

  // ----- the pair -----

  ghost predicate LabelInv(p: Pair, calls: seq<Call>) {
    LabelsMatch(p.hist, p.tx.outQueue, calls) && Counted(p.tx.streams, calls) && p.accepted == MessagesOf(calls)
  }

  lemma {:induction false} MessagesOfAppend(calls: seq<Call>, s: TxState, op: TxOp)
    ensures MessagesOf(calls + NewCalls(s, op)) == MessagesOf(calls) + NewMessages(s, op)
  {}

  lemma {:induction false} SenderKeepsLabels(p: Pair, op: TxOp, calls: seq<Call>)
    requires LabelInv(p, calls) && Clean(op) && !IsSack(op)
    ensures LabelInv(Do(p, AtSender(op)), calls + NewCalls(p.tx, op))
  {
    SenderOutput(p.tx, op);
    CallStep(p.tx, op, calls);
    MoveLabels(p.hist, CoreOf(p.tx), MoveOf(p.tx, op), calls, NewCalls(p.tx, op));
    MessagesOfAppend(calls, p.tx, op);
    assert Apply(p.tx, op).outQueue == CoreOf(Apply(p.tx, op)).outQueue;
  }

  lemma {:induction false} SackKeepsLabels(p: Pair, r: SackRecord, now: nat, calls: seq<Call>)
    requires LabelInv(p, calls)
    ensures LabelInv(p.(tx := HandleSack(p.tx, r.sack, now)), calls)
  {
    SackIsMove(p.tx, r.sack, now);
    SackKeepsSignals(p.tx, r.sack, now);
    assert HandleSack(p.tx, r.sack, now).outQueue == CoreOf(HandleSack(p.tx, r.sack, now)).outQueue;
  }

  lemma {:induction false} LabelStep(p: Pair, a: Action, calls: seq<Call>)
    requires LabelInv(p, calls) && CanHappen(p, a)
    ensures LabelInv(Do(p, a), if a.AtSender? then calls + NewCalls(p.tx, a.op) else calls)
  {
    match a
    case AtSender(op) => SenderKeepsLabels(p, op, calls);
    case DeliverSack(r, now) => SackKeepsLabels(p, r, now, calls);
    case _ =>
  }

  lemma {:induction false} LabelAlways(settings: AssocTxSettings, inStreams: u16, limit: nat, now: nat,
                                       actions: seq<Action>)
    ensures var p := NewPair(settings, inStreams, limit, now); LabelInv(RunPair(p, actions), Calls(p, actions))
  {
    var p := NewPair(settings, inStreams, limit, now);
    if actions == [] {
    } else {
      var before, a := actions[..|actions| - 1], actions[|actions| - 1];
      LabelAlways(settings, inStreams, limit, now, before);
      AppendNothing(Calls(p, before));
      if CanHappen(RunPair(p, before), a) {
        LabelStep(RunPair(p, before), a, Calls(p, before));
      }
    }
  }

  lemma {:induction false} LabelledAt(calls: seq<Call>, cs: seq<DataChunk>, i: nat)
    requires Labelled(calls, cs) && i < |cs|
    ensures IsLabelled(calls, Ended(cs[..i]), AtBoundary(cs[..i]), cs[i])
  {
    assert cs == cs[..i + 1] + cs[i + 1..];
    LabelledPrefix(calls, cs[..i + 1], cs[i + 1..]);
    assert cs[..i + 1][..i] == cs[..i];
  }

  /** In every run each chunk on the wire carries the labels of its message: if k messages ended before it, then it has
      the stream, protocol identifier and flags of the k-th accepted call, it begins a message exactly if the chunk
      before it ended one, and its sequence number is the number of ordered messages that were accepted on its stream
      before that call, modulo 2^16. */
  lemma {:induction false} LabelsAreExact(settings: AssocTxSettings, inStreams: u16, limit: nat, now: nat,
                                          actions: seq<Action>, i: nat)
    requires i < |RunPair(NewPair(settings, inStreams, limit, now), actions).hist|
    ensures var p0 := NewPair(settings, inStreams, limit, now);
      var p, calls := RunPair(p0, actions), Calls(p0, actions);
      && p.accepted == MessagesOf(calls)
      && IsLabelled(calls, Ended(p.hist[..i]), AtBoundary(p.hist[..i]), p.hist[i])
  {
    LabelAlways(settings, inStreams, limit, now, actions);
    var p0 := NewPair(settings, inStreams, limit, now);
    var p, calls := RunPair(p0, actions), Calls(p0, actions);
    LabelledPrefix(calls, p.hist, p.tx.outQueue);
    LabelledAt(calls, p.hist, i);
  }

  // ----- the sequence numbers of a stream -----

  /** The sequence numbers of the chunks that begin an ordered message on a stream. */
  function Begins(cs: seq<DataChunk>, stream: u16): seq<u16> {
    if cs == [] then []
    else
      var c := cs[|cs| - 1];
      Begins(cs[..|cs| - 1], stream) + if c.begin && !c.unordered && c.streamId == stream then [c.seqNum] else []
  }

  function Begun(cs: seq<DataChunk>): nat { Ended(cs) + if AtBoundary(cs) then 0 else 1 }

  ghost predicate Consecutive(ns: seq<u16>) { forall k :: 0 <= k < |ns| ==> ns[k] == k % TWO16 }

  lemma {:induction false} BeginsAreCounted(calls: seq<Call>, cs: seq<DataChunk>, stream: u16)
    requires Labelled(calls, cs) && Begun(cs) <= |calls|
    ensures Consecutive(Begins(cs, stream)) && |Begins(cs, stream)| == OrderedOn(calls[..Begun(cs)], stream)
  {
    if cs == [] {
    } else {
      var before, c := cs[..|cs| - 1], cs[|cs| - 1];
      BeginsAreCounted(calls, before, stream);
      if c.begin {
        var k := Ended(before);
        assert calls[..k + 1] == calls[..k] + [calls[k]];
        OrderedOnSnoc(calls[..k], calls[k], stream);
      }
    }
  }

  lemma {:induction false} BegunAreAccepted(calls: seq<Call>, cs: seq<DataChunk>)
    requires Labelled(calls, cs)
    ensures Begun(cs) <= |calls|
  {}

  /** In every run and on every stream, the ordered messages on the wire have the sequence numbers 0, 1, 2 and so on,
      modulo 2^16: no number is left out, and unordered messages take none. */
  lemma {:induction false} SequenceNumbersAreConsecutive(settings: AssocTxSettings, inStreams: u16, limit: nat,
                                                         now: nat, actions: seq<Action>, stream: u16)
    ensures Consecutive(Begins(RunPair(NewPair(settings, inStreams, limit, now), actions).hist, stream))
  {
    LabelAlways(settings, inStreams, limit, now, actions);
    var p0 := NewPair(settings, inStreams, limit, now);
    var p, calls := RunPair(p0, actions), Calls(p0, actions);
    LabelledPrefix(calls, p.hist, p.tx.outQueue);
    BegunAreAccepted(calls, p.hist);
    BeginsAreCounted(calls, p.hist, stream);
  }
}
