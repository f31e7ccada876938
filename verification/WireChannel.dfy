/** The channel of the pair, byte by byte: what is delivered is what the parser reads from what was serialized. */
module WireChannel {
  import opened Association
  import opened Basics
  import opened Chunks
  import RT = RxTracking
  import RxModel
  import opened SerialNumber
  import opened TxInvariants
  import opened TxModel
  import opened Wire
  import opened WireRoundTrip

  // ----- the channel -----

  /** The chunk that is read from the bytes of a chunk, if any. */
  function ReadBack(c: Chunk): Option<Chunk> {
    match ParseChunk(SerializeChunk(c)).1
    case Ok(d) => Some(d)
    case Err(_) => None
  }

  /** Like `Association.Step`, but chunks and SACKs go over the wire; an empty chunk needs no special treatment. */
  function StepOnWire(p: Pair, a: Action): Pair {
    match a
    case DeliverData(i) =>
      if !(i < |p.hist| && -TSN_RADIUS <= i - p.taken <= TSN_RADIUS) then p
      else (
        match ReadBack(Data(p.hist[i]))
        case Some(Data(d)) =>
          var rx, taken := RxModel.HandleData(p.rx, d), RT.TakenAfter(p.rx, d, p.taken);
          p.(rx := rx, taken := taken, sacks := p.sacks + NewSacks(p.rx, rx, taken))
        case _ => p)
    case DeliverSack(r, now) =>
      if !CanHappen(p, a) then p
      else (
        match ReadBack(SAck(r.sack))
        case Some(SAck(sack)) => p.(tx := HandleSack(p.tx, sack, now))
        case _ => p)
    case _ => Step(p, a)
  }

  function RunOnWire(p: Pair, actions: seq<Action>): Pair {
    if actions == [] then p else StepOnWire(RunOnWire(p, actions[..|actions| - 1]), actions[|actions| - 1])
  }

  /** Chunks and SACKs are short enough for their length fields. */
  predicate Short(p: Pair, a: Action) {
    p.tx.pmtu < TWO16 && (a.DeliverSack? ==> |a.record.sack.blocks| < 16380)
  }

  predicate ShortRun(p: Pair, actions: seq<Action>) {
    actions == [] ||
    (ShortRun(p, actions[..|actions| - 1]) && Short(RunPair(p, actions[..|actions| - 1]), actions[|actions| - 1]))
  }

  // ----- what comes back -----

  /** A DATA chunk comes back exactly if it has payload and fits its length field. */
  lemma {:induction false} DataIsPlainExactly(d: DataChunk)
    ensures Plain(Data(d)) <==> d.buf != [] && |d.buf| < TWO16 - 16
  {}

  /** A SACK without duplicates comes back exactly if it has fewer than 16380 blocks. */
  lemma {:induction false} SackIsPlainExactly(s: SelectiveAck)
    requires s.duplicated == []
    ensures Plain(SAck(s)) <==> |s.blocks| < 16380
  {}

  lemma {:induction false} PlainComesBack(c: Chunk)
    requires Plain(c)
    ensures ReadBack(c) == Some(c)
  {
    ChunkRoundTrip(c, []);
    AppendNothing(SerializeChunk(c));
  }

  lemma {:induction false} EmptyIsNothing(d: DataChunk)
    requires d.buf == []
    ensures ReadBack(Data(d)).None?
  {
    assert SerializeChunk(Data(d)) == [];
  }

  // ----- the sender never makes a chunk that does not fit its packet -----

  /** Every chunk fits a packet of the path MTU, and no SACK lists duplicates. */
  ghost predicate Fitting(p: Pair) {
    && (forall i :: 0 <= i < |p.hist| ==> |p.hist[i].buf| <= p.tx.pmtu - 16)
    && (forall r :: r in p.sacks ==> r.sack.duplicated == [])
  }

  lemma {:induction false} NewChunksFit(s: TxState, op: TxOp)
    ensures forall c :: c in NewChunks(s, op) ==> |c.buf| <= s.pmtu - 16
  {
    if op.PollDataOp? {
      PollIsMove(s, op.limit, op.packed, op.now);
    }
  }

  lemma {:induction false} SenderFits(p: Pair, op: TxOp)
    requires Fitting(p) && CanHappen(p, AtSender(op))
    ensures Fitting(Do(p, AtSender(op)))
  {
    NewChunksFit(p.tx, op);
    PmtuGrows(p.tx, op);
    var n, added := Do(p, AtSender(op)), NewChunks(p.tx, op);
    forall i | 0 <= i < |n.hist| ensures |n.hist[i].buf| <= n.tx.pmtu - 16 {
      if i >= |p.hist| {
        assert n.hist[i] == added[i - |p.hist|];
      }
    }
  }

  lemma {:induction false} StepFits(p: Pair, a: Action)
    requires Fitting(p)
    ensures Fitting(Step(p, a))
  {
    if CanHappen(p, a) {
      match a
      case AtSender(op) => SenderFits(p, op);
      case DeliverData(i) => RxModel.DataFrame(p.rx, p.hist[i]);
      case DeliverSack(r, now) => SackKeepsSignals(p.tx, r.sack, now);
      case DeliverControl(_, _) =>
      case PollMessage =>
      case TakeNotes =>
    }
  }

  lemma {:induction false} RunFits(p: Pair, actions: seq<Action>)
    requires Fitting(p)
    ensures Fitting(RunPair(p, actions))
  {
    if actions == [] {
    } else {
      RunFits(p, actions[..|actions| - 1]);
      StepFits(RunPair(p, actions[..|actions| - 1]), actions[|actions| - 1]);
    }
  }

  /** In every run: while the path MTU fits 16 bits, every chunk with payload that ever got a TSN comes back. */
  lemma {:induction false} HistoryIsPlain(settings: AssocTxSettings, inStreams: u16, limit: nat, now: nat,
                                          actions: seq<Action>, i: nat)
    requires var p := RunPair(NewPair(settings, inStreams, limit, now), actions);
      i < |p.hist| && p.hist[i].buf != [] && p.tx.pmtu < TWO16
    ensures Plain(Data(RunPair(NewPair(settings, inStreams, limit, now), actions).hist[i]))
  {
    RunFits(NewPair(settings, inStreams, limit, now), actions);
    DataIsPlainExactly(RunPair(NewPair(settings, inStreams, limit, now), actions).hist[i]);
  }

  // ----- both channels are the same -----

  lemma {:induction false} SameStep(p: Pair, a: Action)
    requires Fitting(p) && Short(p, a)
    ensures StepOnWire(p, a) == Step(p, a)
  {
    if a.DeliverData? && a.index < |p.hist| {
      var d := p.hist[a.index];
      if d.buf == [] {
        EmptyIsNothing(d);
      } else {
        DataIsPlainExactly(d);
        PlainComesBack(Data(d));
      }
    } else if a.DeliverSack? && CanHappen(p, a) {
      SackIsPlainExactly(a.record.sack);
      PlainComesBack(SAck(a.record.sack));
    }
  }

  /** As long as the path MTU and the SACKs fit 16-bit length fields, delivering the bytes that were serialized is
      delivering the chunks: both channels give the same run. */
  lemma {:induction false} WireIsTransparent(settings: AssocTxSettings, inStreams: u16, limit: nat, now: nat,
                                             actions: seq<Action>)
    requires ShortRun(NewPair(settings, inStreams, limit, now), actions)
    ensures var p := NewPair(settings, inStreams, limit, now);
      RunOnWire(p, actions) == RunPair(p, actions)
  {
    if actions == [] {
    } else {
      var p, before := NewPair(settings, inStreams, limit, now), actions[..|actions| - 1];
      WireIsTransparent(settings, inStreams, limit, now, before);
      RunFits(p, before);
      SameStep(RunPair(p, before), actions[|actions| - 1]);
    }
  }
}
