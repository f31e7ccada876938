/** What each action of a sender or a receiver means for the pair of them. */
module AssociationSteps {
  import opened Basics
  import opened SerialNumber
  import opened Chunks
  import opened Messages
  import opened TxModel
  import opened TxInvariants
  import opened Association
  import RxModel
  import RT = RxTracking

  // ----- the sender acts -----

  lemma {:induction false} PollFrame(s: TxState, limit: nat, packed: nat, now: nat)
    ensures var t := PollData(s, limit, packed, now).0;
      && t.lastAcked == s.lastAcked && t.streams == s.streams && t.outLimit == s.outLimit
      && t.peerWindow == s.peerWindow - PayloadBytes(NewChunks(s, PollDataOp(limit, packed, now)))
  {
    PollIsMove(s, limit, packed, now);
    PollKeepsSignals(s, limit, packed, now);
    var m := PollMove(s, limit, packed);
    if m.SendWhole? || m.SendFragment? {
      var sent := Outgoing(CoreOf(s), m);
      assert PayloadBytes([sent]) == |sent.buf| by { assert [sent][..0] == []; }
    }
  }

  /** What the sender knows about the receiver, and its limits. */
  predicate SameKnowledge(s: TxState, t: TxState) {
    t.lastAcked == s.lastAcked && |t.streams| == |s.streams| && t.outLimit == s.outLimit
  }

  lemma {:induction false} OtherFrame(s: TxState, op: TxOp)
    requires Clean(op) && !IsSack(op) && !op.PollDataOp? && !op.TimeoutOp?
    ensures SameKnowledge(s, Apply(s, op)) && Apply(s, op).peerWindow == s.peerWindow
  {}

  lemma {:induction false} TimeoutFrame(s: TxState, timeout: Timer, plan: ProbePlan)
    ensures var t := HandleTimeout(s, timeout, plan);
      SameKnowledge(s, t) && t.peerWindow == s.peerWindow
  {}

  /** Without a SACK only a transmission changes what the sender knows about the receiver. */
  lemma {:induction false} SenderFrame(s: TxState, op: TxOp)
    requires Clean(op) && !IsSack(op)
    ensures SameKnowledge(s, Apply(s, op))
    ensures Apply(s, op).peerWindow == s.peerWindow - PayloadBytes(NewChunks(s, op))
  {
    if op.PollDataOp? {
      PollFrame(s, op.limit, op.packed, op.now);
    } else if op.TimeoutOp? {
      TimeoutFrame(s, op.timeout, op.plan);
    } else {
      OtherFrame(s, op);
    }
  }

  /** Seen from outside, a sender operation is its move. */
  lemma {:induction false} SenderOutput(s: TxState, op: TxOp)
    requires Clean(op) && !IsSack(op)
    ensures var m := MoveOf(s, op);
      && CanMove(CoreOf(s), m) && !m.Forget? && CoreOf(Apply(s, op)) == Moved(CoreOf(s), m)
      && NewChunks(s, op) == SentBy(CoreOf(s), m)
      && NewMessages(s, op) == AcceptedBy(m)
      && (m.Enqueue? ==> m.chunk.end && m.chunk.streamId < |s.streams|)
  {
    EveryOperationIsAMove(s, op);
    if op.PollDataOp? {
      PollIsMove(s, op.limit, op.packed, op.now);
    }
    var m := MoveOf(s, op);
    if m.Enqueue? {
      assert [m.chunk][..0] == [];
      assert Payload([m.chunk]) == m.chunk.buf;
    }
  }

  /** The chunk that a move puts on the wire. */
  function SentBy(c: Core, m: Move): seq<DataChunk>
    requires CanMove(c, m)
  {
    if m.SendWhole? || m.SendFragment? then [Outgoing(c, m)] else []
  }

  /** The message that a move accepts. */
  function AcceptedBy(m: Move): seq<Message> {
    if m.Enqueue? then [MessageOf(m.chunk, [m.chunk])] else []
  }

  /** The messages after a move are those before it and the one it accepts. */
  ghost predicate Carried(hist: seq<DataChunk>, before: seq<DataChunk>, sent: seq<DataChunk>, after: seq<DataChunk>,
                          accepted: seq<Message>) {
    && Completed(hist + sent + after) == Completed(hist + before) + accepted
    && Resumes(hist + sent, after)
    && (sent != [] ==> Continues(Tail(hist), sent[0]))
  }

  lemma {:induction false} StayCarries(hist: seq<DataChunk>, q: seq<DataChunk>)
    requires Resumes(hist, q)
    ensures Carried(hist, q, [], q, [])
  {
    AppendNothing(hist);
    AppendNothing(Completed(hist + q));
  }

  lemma {:induction false} EnqueueCarries(hist: seq<DataChunk>, q: seq<DataChunk>, c: DataChunk)
    requires Resumes(hist, q) && c.end
    ensures Carried(hist, q, [], q + [c], [MessageOf(c, [c])])
  {
    AppendNothing(hist);
    Enqueued(hist, q, c);
  }

  lemma {:induction false} WholeCarries(hist: seq<DataChunk>, q: seq<DataChunk>, tsn: u32)
    requires Resumes(hist, q) && q != []
    ensures Carried(hist, q, [q[0].(tsn := tsn, end := true)], q[1..], [])
  {
    AppendNothing(Completed(hist + q));
    SentWhole(hist, q, q[0].(tsn := tsn, end := true));
  }

  lemma {:induction false} FragmentCarries(hist: seq<DataChunk>, q: seq<DataChunk>, tsn: u32, k: nat)
    requires Resumes(hist, q) && q != [] && k <= |q[0].buf|
    ensures Carried(hist, q, [Fragment(q[0], tsn, k)], [Remainder(q[0], k)] + q[1..], [])
  {
    AppendNothing(Completed(hist + q));
    FragmentResumes(hist, q, Fragment(q[0], tsn, k), Remainder(q[0], k));
    SentFragment(hist, q, Fragment(q[0], tsn, k), Remainder(q[0], k));
  }

  /** Fragmenting and sending never changes the messages, and accepting one appends it. */
  lemma {:induction false} MoveCarries(hist: seq<DataChunk>, c: Core, m: Move)
    requires CanMove(c, m) && !m.Forget? && (m.Enqueue? ==> m.chunk.end) && Resumes(hist, c.outQueue)
    ensures Carried(hist, c.outQueue, SentBy(c, m), Moved(c, m).outQueue, AcceptedBy(m))
  {
    match m
    case Stay => StayCarries(hist, c.outQueue);
    case Enqueue(chunk) => EnqueueCarries(hist, c.outQueue, chunk);
    case SendWhole => WholeCarries(hist, c.outQueue, c.tsnCounter);
    case SendFragment(k) => FragmentCarries(hist, c.outQueue, c.tsnCounter, k);
  }

  /** What a sender action does to the pair, by the move of its data. */
  ghost predicate Sends(p: Pair, n: Pair, m: Move) {
    var c := CoreOf(p.tx);
    && CanMove(c, m) && !m.Forget? && CoreOf(n.tx) == Moved(c, m) && Sound(n.tx)
    && n == p.(tx := n.tx, hist := p.hist + SentBy(c, m), accepted := p.accepted + AcceptedBy(m))
    && (m.Enqueue? ==> m.chunk.end && m.chunk.streamId < |p.tx.streams|)
    && n.tx.lastAcked == p.tx.lastAcked && |n.tx.streams| == |p.tx.streams| && n.tx.outLimit == p.tx.outLimit
    && n.tx.peerWindow == p.tx.peerWindow - PayloadBytes(SentBy(c, m))
  }

  lemma {:induction false} SenderSends(p: Pair, op: TxOp)
    requires Sound(p.tx) && Clean(op) && !IsSack(op)
    ensures Sends(p, Do(p, AtSender(op)), MoveOf(p.tx, op))
  {
    SoundStep(p.tx, op);
    SenderOutput(p.tx, op);
    SenderFrame(p.tx, op);
  }

  lemma {:induction false} GrownTail(p: Pair, n: Pair, sent: seq<DataChunk>)
    requires 0 <= Kept(p) && DataOf(p.tx.resend) == p.hist[Kept(p)..]
    requires n.hist == p.hist + sent && DataOf(n.tx.resend) == DataOf(p.tx.resend) + sent
    ensures Kept(n) == Kept(p) && DataOf(n.tx.resend) == n.hist[Kept(n)..]
  {}

  /** What the move of a sender leaves in the queue. */
  lemma {:induction false} SentQueue(p: Pair, n: Pair, m: Move)
    requires Sends(p, n, m)
    ensures var sent := SentBy(CoreOf(p.tx), m);
      && DataOf(n.tx.resend) == DataOf(p.tx.resend) + sent && |sent| <= 1
      && n.tx.tsnCounter == (if sent == [] then p.tx.tsnCounter else Increase(p.tx.tsnCounter))
  {}

  lemma {:induction false} SendKeeps(p: Pair, n: Pair, m: Move, init: u32)
    requires KeepsUnacked(p, init) && Sends(p, n, m)
    ensures KeepsUnacked(n, init)
  {
    AtStep(init, |p.hist|);
    SentQueue(p, n, m);
    GrownTail(p, n, SentBy(CoreOf(p.tx), m));
  }

  lemma {:induction false} SendCarries(p: Pair, n: Pair, m: Move)
    requires CarriesMessages(p) && Sends(p, n, m)
    ensures CarriesMessages(n)
    ensures SentBy(CoreOf(p.tx), m) != [] ==> Continues(Tail(p.hist), SentBy(CoreOf(p.tx), m)[0])
  {
    MoveCarries(p.hist, CoreOf(p.tx), m);
  }

  lemma {:induction false} MoveStreams(c: Core, m: Move, streams: nat)
    requires CanMove(c, m) && !m.Forget? && (m.Enqueue? ==> m.chunk.streamId < streams)
    requires forall i :: 0 <= i < |c.outQueue| ==> c.outQueue[i].streamId < streams
    ensures forall i :: 0 <= i < |Moved(c, m).outQueue| ==> Moved(c, m).outQueue[i].streamId < streams
    ensures SentBy(c, m) != [] ==> SentBy(c, m)[0].streamId < streams
  {}

  lemma {:induction false} SendStreams(p: Pair, n: Pair, m: Move)
    requires StreamsMatch(p) && Sends(p, n, m)
    ensures StreamsMatch(n)
    ensures SentBy(CoreOf(p.tx), m) != [] ==> SentBy(CoreOf(p.tx), m)[0].streamId < |p.rx.streams|
  {
    MoveStreams(CoreOf(p.tx), m, |p.rx.streams|);
    assert n.tx.outQueue == Moved(CoreOf(p.tx), m).outQueue;
  }

  lemma {:induction false} HistoryExtends(hist: seq<DataChunk>, init: u32, c: DataChunk)
    requires RT.History(hist, init) && Continues(Tail(hist), c) && c.tsn == At(init, |hist|)
    ensures RT.History(hist + [c], init)
  {
    CoherentSnoc(hist, c);
  }

  lemma {:induction false} OneMoreFollows(p: Pair, init: u32, c: DataChunk)
    requires RT.Follows(p.rx, p.hist, init, p.taken, 1, p.ordered, p.unordered)
    requires Continues(Tail(p.hist), c) && c.tsn == At(init, |p.hist|) && c.streamId < |p.rx.streams|
    ensures RT.Follows(p.rx, p.hist + [c], init, p.taken, 1, p.ordered, p.unordered)
    ensures RT.Missing(p.rx, p.hist + [c], p.taken) == RT.Missing(p.rx, p.hist, p.taken) + PayloadBytes([c])
  {
    HistoryExtends(p.hist, init, c);
    RT.ExtendFollows(p.rx, p.hist, init, p.taken, p.ordered, p.unordered, c);
    assert PayloadBytes([c]) == |c.buf| by { assert [c][..0] == []; }
  }

  lemma {:induction false} SendFollows(p: Pair, n: Pair, m: Move, init: u32)
    requires RT.Follows(p.rx, p.hist, init, p.taken, 1, p.ordered, p.unordered)
    requires p.tx.tsnCounter == At(init, |p.hist|) && CarriesMessages(p) && StreamsMatch(p) && Sends(p, n, m)
    ensures RT.Follows(n.rx, n.hist, init, n.taken, 1, n.ordered, n.unordered)
    ensures Demand(n) == Demand(p) + PayloadBytes(SentBy(CoreOf(p.tx), m))
  {
    var sent := SentBy(CoreOf(p.tx), m);
    SendCarries(p, n, m);
    SendStreams(p, n, m);
    if sent != [] {
      OneMoreFollows(p, init, sent[0]);
    } else {
      AppendNothing(p.hist);
    }
  }

  /** What was honest stays honest when the demand grows by no more than what was sent. */
  lemma {:induction false} StaysHonest(p: Pair, n: Pair, init: u32, sent: seq<DataChunk>, r: SackRecord)
    requires p.taken <= |p.hist| && p.taken <= n.taken <= |n.hist| && n.hist == p.hist + sent
      && n.rx.limit == p.rx.limit
    requires Demand(n) <= Demand(p) + PayloadBytes(sent) && Honest(p, init, r)
    ensures Honest(n, init, r)
  {
    assert n.hist[r.covers..] == p.hist[r.covers..] + sent;
    PayloadBytesConcat(p.hist[r.covers..], sent);
  }

  lemma {:induction false} SendFlows(p: Pair, n: Pair, m: Move, init: u32)
    requires Inv(p, init) && Sends(p, n, m)
    ensures n.taken <= |n.hist| && FlowControlled(n, init)
  {
    SendFollows(p, n, m, init);
    forall r | r in n.sacks ensures Honest(n, init, r) {
      assert Honest(p, init, r);
      StaysHonest(p, n, init, SentBy(CoreOf(p.tx), m), r);
    }
  }

  lemma {:induction false} SendKeepsInv(p: Pair, n: Pair, m: Move, init: u32)
    requires Inv(p, init) && Sends(p, n, m)
    ensures Inv(n, init)
  {
    SendKeeps(p, n, m, init);
    SendCarries(p, n, m);
    SendStreams(p, n, m);
    SendFollows(p, n, m, init);
    SendFlows(p, n, m, init);
  }

  // ----- a chunk arrives -----

  /** What an arriving chunk does to the pair. */
  ghost predicate Receives(p: Pair, n: Pair, init: u32)
    requires p.taken <= |p.hist|
  {
    && n == p.(rx := n.rx, taken := n.taken, sacks := n.sacks)
    && p.taken <= n.taken && n.rx.limit == p.rx.limit && |n.rx.streams| == |p.rx.streams|
    && RT.Follows(n.rx, n.hist, init, n.taken, 1, n.ordered, n.unordered)
    && Demand(n) == Demand(p)
    && forall r :: r in n.sacks ==> r in p.sacks || r == SackRecord(RxModel.MakeSack(n.rx), n.taken)
  }

  lemma {:induction false} ArrivalReceives(p: Pair, rx: RxModel.RxState, taken: nat, init: u32)
    requires p.taken <= taken <= |p.hist| && p.rx.limit == rx.limit && |p.rx.streams| == |rx.streams|
    requires RT.Follows(rx, p.hist, init, taken, 1, p.ordered, p.unordered)
    requires rx.buffered + RT.Missing(rx, p.hist, taken) == Demand(p)
    requires rx.notes == p.rx.notes || rx.notes == p.rx.notes + [Send(SAck(RxModel.MakeSack(rx)))]
    ensures Receives(p, p.(rx := rx, taken := taken, sacks := p.sacks + NewSacks(p.rx, rx, taken)), init)
  {}

  lemma {:induction false} DataReceives(p: Pair, init: u32, i: nat)
    requires RT.Follows(p.rx, p.hist, init, p.taken, 1, p.ordered, p.unordered) && CanHappen(p, DeliverData(i))
    ensures Receives(p, Do(p, DeliverData(i)), init)
  {
    RT.ArrivalFollows(p.rx, p.hist, init, p.taken, p.ordered, p.unordered, i);
    RxModel.DataFrame(p.rx, p.hist[i]);
    ArrivalReceives(p, RxModel.HandleData(p.rx, p.hist[i]), RT.TakenAfter(p.rx, p.hist[i], p.taken), init);
  }

  /** The SACK queued by an arrival is honest. */
  lemma {:induction false} NewSackIsHonest(p: Pair, init: u32, r: SackRecord)
    requires RT.Follows(p.rx, p.hist, init, p.taken, 1, p.ordered, p.unordered) && p.rx.limit < TWO32
    requires r == SackRecord(RxModel.MakeSack(p.rx), p.taken)
    ensures Honest(p, init, r)
  {
    AtStep(init, p.taken - 1);
  }

  lemma {:induction false} ReceiveFlows(p: Pair, n: Pair, init: u32)
    requires p.taken <= |p.hist| && FlowControlled(p, init) && Receives(p, n, init)
    ensures FlowControlled(n, init)
  {
    AppendNothing(p.hist);
    forall r | r in n.sacks ensures Honest(n, init, r) {
      if r in p.sacks {
        assert Honest(p, init, r);
        StaysHonest(p, n, init, [], r);
      } else {
        NewSackIsHonest(n, init, r);
      }
    }
  }

  lemma {:induction false} ReceiveKeepsSender(p: Pair, n: Pair, init: u32)
    requires KeepsUnacked(p, init) && CarriesMessages(p) && StreamsMatch(p)
    requires n.tx == p.tx && n.hist == p.hist && n.accepted == p.accepted
    requires p.taken <= n.taken && |n.rx.streams| == |p.rx.streams|
    ensures KeepsUnacked(n, init) && CarriesMessages(n) && StreamsMatch(n)
  {}

  lemma {:induction false} ReceiveKeepsInv(p: Pair, n: Pair, init: u32)
    requires Inv(p, init) && Receives(p, n, init)
    ensures Inv(n, init)
  {
    ReceiveKeepsSender(p, n, init);
    ReceiveFlows(p, n, init);
  }

  // ----- a SACK arrives -----

  /** What an arriving SACK does to the pair. */
  ghost predicate Acknowledges(p: Pair, n: Pair, r: SackRecord) {
    var order := TsnCompare(p.tx.lastAcked, r.sack.cumTsn);
    var m := if order == Less then Forget(AckedCount(p.tx.resend, r.sack.cumTsn)) else Stay;
    && n == p.(tx := n.tx) && Sound(n.tx)
    && CanMove(CoreOf(p.tx), m) && CoreOf(n.tx) == Moved(CoreOf(p.tx), m)
    && n.tx.streams == p.tx.streams
    && n.tx.lastAcked == (if order == Less then r.sack.cumTsn else p.tx.lastAcked)
    && n.tx.peerWindow == (if order == Greater then p.tx.peerWindow else WindowAfter(r.sack, n.tx.inFlight))
  }

  lemma {:induction false} SackUpdates(s: TxState, sack: SelectiveAck, now: nat)
    ensures var t, order := HandleSack(s, sack, now), TsnCompare(s.lastAcked, sack.cumTsn);
      && t.lastAcked == (if order == Less then sack.cumTsn else s.lastAcked)
      && t.peerWindow == (if order == Greater then s.peerWindow else WindowAfter(sack, t.inFlight))
  {}

  lemma {:induction false} AcknowledgedBy(p: Pair, r: SackRecord, tx: TxState)
    requires Sound(tx) && SameSignals(p.tx, tx) && CanMove(CoreOf(p.tx), SackMove(p.tx, r.sack))
    requires CoreOf(tx) == Moved(CoreOf(p.tx), SackMove(p.tx, r.sack))
    requires var order := TsnCompare(p.tx.lastAcked, r.sack.cumTsn);
      && tx.lastAcked == (if order == Less then r.sack.cumTsn else p.tx.lastAcked)
      && tx.peerWindow == (if order == Greater then p.tx.peerWindow else WindowAfter(r.sack, tx.inFlight))
    ensures Acknowledges(p, p.(tx := tx), r)
  {}

  lemma {:induction false} SackAcknowledges(p: Pair, r: SackRecord, now: nat)
    requires Sound(p.tx)
    ensures Acknowledges(p, p.(tx := HandleSack(p.tx, r.sack, now)), r)
  {
    SoundStep(p.tx, NotifyOp(PeerSAck(r.sack, now), 0));
    SackIsMove(p.tx, r.sack, now);
    SackKeepsSignals(p.tx, r.sack, now);
    SackUpdates(p.tx, r.sack, now);
    AcknowledgedBy(p, r, HandleSack(p.tx, r.sack, now));
  }

  /** A SACK compares with the last acknowledged TSN as the numbers of covered chunks do, except that at the
      start, while nothing was acknowledged, any outcome is possible. */
  lemma {:induction false} SackOrder(p: Pair, init: u32, r: SackRecord)
    requires KeepsUnacked(p, init) && r.sack.cumTsn == At(init, r.covers - 1)
    requires -TSN_RADIUS <= r.covers - Kept(p) <= TSN_RADIUS
    ensures TsnCompare(p.tx.lastAcked, r.sack.cumTsn) != Greater ==> Kept(p) <= r.covers
  {
    if p.tx.lastAcked == At(init, Kept(p) - 1) {
      CompareAt(init, Kept(p) - 1, r.covers - 1);
    }
  }

  /** A SACK that covers `k` chunks makes the sender forget exactly the chunks before `k`. */
  lemma {:induction false} ForgetsCovered(p: Pair, init: u32, r: SackRecord)
    requires KeepsUnacked(p, init) && r.sack.cumTsn == At(init, r.covers - 1)
    requires 0 <= r.covers - Kept(p) <= TSN_RADIUS && r.covers <= |p.hist|
    requires forall i :: 0 <= i < |p.hist| ==> p.hist[i].tsn == At(init, i)
    ensures AckedCount(p.tx.resend, r.sack.cumTsn) == r.covers - Kept(p)
  {
    var k, f := AckedCount(p.tx.resend, r.sack.cumTsn), Kept(p);
    if k < r.covers - f {
      assert p.tx.resend[k].data == DataOf(p.tx.resend)[k] == p.hist[f + k];
      CompareAt(init, f + k, r.covers - 1);
    } else if k > r.covers - f {
      var j := r.covers - f;
      assert AckedBy(p.tx.resend[j], r.sack.cumTsn);
      assert p.tx.resend[j].data == DataOf(p.tx.resend)[j] == p.hist[f + j];
      CompareAt(init, f + j, r.covers - 1);
    }
  }

  lemma {:induction false} DroppedTail(p: Pair, n: Pair, k: nat)
    requires 0 <= Kept(p) && DataOf(p.tx.resend) == p.hist[Kept(p)..] && k <= |p.tx.resend|
    requires n.hist == p.hist && DataOf(n.tx.resend) == DataOf(p.tx.resend)[k..]
    ensures Kept(n) == Kept(p) + k && DataOf(n.tx.resend) == n.hist[Kept(n)..]
  {}

  /** What the move of a SACK leaves in the queue. */
  lemma {:induction false} AckedQueue(p: Pair, n: Pair, r: SackRecord)
    requires Acknowledges(p, n, r)
    ensures var k := if TsnCompare(p.tx.lastAcked, r.sack.cumTsn) == Less then AckedCount(p.tx.resend, r.sack.cumTsn)
      else 0;
      && k <= |p.tx.resend| && DataOf(n.tx.resend) == DataOf(p.tx.resend)[k..]
      && n.tx.tsnCounter == p.tx.tsnCounter && n.hist == p.hist && n.taken == p.taken
  {}

  lemma {:induction false} OldAckKeeps(p: Pair, n: Pair, init: u32, r: SackRecord)
    requires KeepsUnacked(p, init) && Acknowledges(p, n, r) && TsnCompare(p.tx.lastAcked, r.sack.cumTsn) != Less
    ensures KeepsUnacked(n, init) && Kept(n) == Kept(p)
  {}

  lemma {:induction false} NewAckKeeps(p: Pair, n: Pair, init: u32, r: SackRecord)
    requires KeepsUnacked(p, init) && Acknowledges(p, n, r) && TsnCompare(p.tx.lastAcked, r.sack.cumTsn) == Less
    requires r.sack.cumTsn == At(init, r.covers - 1) && r.covers <= p.taken
    requires Kept(p) <= r.covers && AckedCount(p.tx.resend, r.sack.cumTsn) == r.covers - Kept(p)
    ensures KeepsUnacked(n, init) && Kept(n) == r.covers
  {
    AckedQueue(p, n, r);
    DroppedTail(p, n, r.covers - Kept(p));
  }

  lemma {:induction false} AckKeeps(p: Pair, n: Pair, init: u32, r: SackRecord)
    requires KeepsUnacked(p, init) && Acknowledges(p, n, r)
    requires r.sack.cumTsn == At(init, r.covers - 1) && r.covers <= p.taken <= |p.hist|
    requires -TSN_RADIUS <= r.covers - Kept(p) <= TSN_RADIUS
    requires forall i :: 0 <= i < |p.hist| ==> p.hist[i].tsn == At(init, i)
    ensures KeepsUnacked(n, init)
    ensures TsnCompare(p.tx.lastAcked, r.sack.cumTsn) != Greater ==> Kept(n) <= r.covers
  {
    SackOrder(p, init, r);
    if TsnCompare(p.tx.lastAcked, r.sack.cumTsn) == Less {
      ForgetsCovered(p, init, r);
      NewAckKeeps(p, n, init, r);
    } else {
      OldAckKeeps(p, n, init, r);
    }
  }

  lemma {:induction false} TailBytes(hist: seq<DataChunk>, f: nat, k: nat)
    requires f <= k <= |hist|
    ensures PayloadBytes(hist[k..]) <= PayloadBytes(hist[f..])
  {
    assert hist[f..] == hist[f..k] + hist[k..];
    PayloadBytesConcat(hist[f..k], hist[k..]);
  }

  lemma {:induction false} FlightIsTail(n: Pair, init: u32)
    requires KeepsUnacked(n, init)
    ensures 0 <= Kept(n) && n.tx.inFlight == PayloadBytes(n.hist[Kept(n)..]) <= n.tx.outLimit
  {}

  /** However old the SACK is, the window it opens leaves room for everything still on its way. */
  lemma {:induction false} WindowHasRoom(demand: int, limit: nat, sack: SelectiveAck, inFlight: int, since: nat)
    requires demand + sack.aRwnd <= limit + since && since <= inFlight < TWO32 && demand <= limit
    ensures demand + WindowAfter(sack, inFlight) <= limit
  {}

  lemma {:induction false} AckFlows(p: Pair, n: Pair, init: u32, r: SackRecord)
    requires p.taken <= |p.hist| && FlowControlled(p, init) && r in p.sacks
    requires n == p.(tx := n.tx) && KeepsUnacked(n, init) && n.tx.outLimit == p.tx.outLimit
    requires n.tx.peerWindow == p.tx.peerWindow
      || (n.tx.peerWindow == WindowAfter(r.sack, n.tx.inFlight) && Kept(n) <= r.covers)
    ensures FlowControlled(n, init)
  {
    forall q | q in n.sacks ensures Honest(n, init, q) {
      assert Honest(p, init, q);
    }
    if n.tx.peerWindow != p.tx.peerWindow {
      FlightIsTail(n, init);
      TailBytes(n.hist, Kept(n), r.covers);
      assert Honest(n, init, r);
      WindowHasRoom(Demand(n), n.rx.limit, r.sack, n.tx.inFlight, PayloadBytes(n.hist[r.covers..]));
    }
  }

  lemma {:induction false} AckIsSafe(p: Pair, n: Pair, init: u32, r: SackRecord)
    requires p.taken <= |p.hist| && RT.History(p.hist, init) && KeepsUnacked(p, init) && FlowControlled(p, init)
    requires Acknowledges(p, n, r) && r in p.sacks && -TSN_RADIUS <= r.covers - Kept(p) <= TSN_RADIUS
    ensures KeepsUnacked(n, init) && FlowControlled(n, init)
  {
    assert Honest(p, init, r);
    AckKeeps(p, n, init, r);
    assert n.tx.outLimit == CoreOf(n.tx).limit;
    AckFlows(p, n, init, r);
  }

  lemma {:induction false} AckCarries(p: Pair, n: Pair, r: SackRecord)
    requires CarriesMessages(p) && StreamsMatch(p) && Acknowledges(p, n, r)
    ensures CarriesMessages(n) && StreamsMatch(n)
  {}

  lemma {:induction false} AckKeepsInv(p: Pair, n: Pair, init: u32, r: SackRecord)
    requires Inv(p, init) && Acknowledges(p, n, r) && r in p.sacks && -TSN_RADIUS <= r.covers - Kept(p) <= TSN_RADIUS
    ensures Inv(n, init)
  {
    AckIsSafe(p, n, init, r);
    AckCarries(p, n, r);
  }

  // ----- the receiving application and everything else -----

  lemma {:induction false} ReceiverFlows(p: Pair, n: Pair, init: u32)
    requires p.taken <= |p.hist| && FlowControlled(p, init)
    requires n == p.(rx := n.rx, ordered := n.ordered, unordered := n.unordered)
    requires n.rx.limit == p.rx.limit && n.rx.reorder == p.rx.reorder && n.rx.buffered <= p.rx.buffered
    ensures FlowControlled(n, init)
  {}

  /** Only the receiver changed, it holds no more than before, and it still follows the history. */
  lemma {:induction false} ReceiverKeepsInv(p: Pair, n: Pair, init: u32)
    requires Inv(p, init) && n == p.(rx := n.rx, ordered := n.ordered, unordered := n.unordered)
    requires RT.Follows(n.rx, n.hist, init, n.taken, 1, n.ordered, n.unordered)
    requires n.rx.limit == p.rx.limit && |n.rx.streams| == |p.rx.streams|
    requires n.rx.reorder == p.rx.reorder && n.rx.buffered <= p.rx.buffered
    ensures Inv(n, init)
  {
    ReceiverFlows(p, n, init);
    assert KeepsUnacked(n, init) && CarriesMessages(n) && StreamsMatch(n);
  }

  lemma {:induction false} PollKeepsInv(p: Pair, init: u32)
    requires Inv(p, init)
    ensures Inv(Do(p, PollMessage), init)
  {
    RT.PollFollows(p.rx, p.hist, init, p.taken, p.ordered, p.unordered);
    ReceiverKeepsInv(p, Do(p, PollMessage), init);
  }

  lemma {:induction false} NotesKeepInv(p: Pair, rx: RxModel.RxState, init: u32)
    requires Inv(p, init) && rx == p.rx.(notes := rx.notes, shutdown := rx.shutdown)
    ensures Inv(p.(rx := rx), init)
  {
    ReceiverKeepsInv(p, p.(rx := rx), init);
  }

  lemma {:induction false} ControlFrame(r: RxModel.RxState, c: Chunk, now: nat)
    ensures var a := RxModel.HandleControl(r, c, now);
      a == r.(notes := a.notes, shutdown := a.shutdown)
  {}
}
