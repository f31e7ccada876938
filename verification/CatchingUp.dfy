/** What can still be delivered: everything, exactly if no chunk on its way is empty. */
module CatchingUp {
  import opened Association
  import opened AssociationSafety
  import opened Basics
  import opened Chunks
  import opened Messages
  import opened PanicFreedom
  import RT = RxTracking
  import RxModel
  import opened TxInvariants
  import opened TxModel

  // ----- continuations -----

  lemma {:induction false} RunAppend(p: Pair, a: seq<Action>, b: seq<Action>)
    ensures RunPair(p, a + b) == RunPair(RunPair(p, a), b)
    decreases |b|
  {
    if b == [] {
      AppendNothing(a);
    } else {
      AppendLast(a, b);
      RunAppend(p, a, b[..|b| - 1]);
    }
  }

  lemma {:induction false} RunCons(p: Pair, a: Action, rest: seq<Action>)
    ensures RunPair(p, [a] + rest) == RunPair(Step(p, a), rest)
  {
    RunAppend(p, [a], rest);
    assert [a][..0] == [];
    assert RunPair(p, [a]) == Step(p, a);
  }

  lemma {:induction false} HistoryKept(p: Pair, more: seq<Action>)
    ensures p.hist <= RunPair(p, more).hist
  {
    if more == [] {
    } else {
      HistoryKept(p, more[..|more| - 1]);
      HistoryGrows(RunPair(p, more[..|more| - 1]), more[|more| - 1]);
    }
  }

  // ----- the next chunk always finds its place -----

  lemma {:induction false} NextIsTaken(r: RxModel.RxState, hist: seq<DataChunk>, init: u32, n: nat)
    requires RT.Tracks(r, hist, init, n, 1) && RT.History(hist, init) && RT.ValidStreams(r, hist) && n < |hist|
    requires RxModel.Fits(r, hist[n])
    ensures RT.TakenAfter(r, hist[n], n) > n
  {
    RT.DrainToGrows(RxModel.Accept(r, hist[n]), n + 1);
  }

  lemma {:induction false} RoomForNext(p: Pair, init: u32)
    requires Inv(p, init) && p.taken < |p.hist|
    ensures RxModel.Fits(p.rx, p.hist[p.taken])
  {
    RoomForMissing(p, init, p.taken);
    RT.CounterIsMaximal(p.rx, p.hist, init, p.taken);
  }

  /** Only the receiver has moved on. */
  ghost predicate MovedOn(p: Pair, n: Pair, init: u32) {
    && Inv(n, init) && p.taken <= n.taken && n.hist == p.hist && n.tx == p.tx && n.accepted == p.accepted
    && n.rx.shutdown == p.rx.shutdown
  }

  /** Flow control leaves room for the next chunk, and its arrival makes progress. */
  lemma {:induction false} NextArrives(p: Pair, init: u32)
    requires Inv(p, init) && p.taken < |p.hist| && p.hist[p.taken].buf != []
    ensures MovedOn(p, Step(p, DeliverData(p.taken)), init) && p.taken < Step(p, DeliverData(p.taken)).taken
  {
    RoomForNext(p, init);
    NextIsTaken(p.rx, p.hist, init, p.taken);
    RxModel.DataFrame(p.rx, p.hist[p.taken]);
    InvStep(p, init, DeliverData(p.taken));
  }

  lemma {:induction false} TailNonEmpty(hist: seq<DataChunk>, n: nat, m: nat)
    requires n <= m <= |hist| && NonEmpty(hist[n..])
    ensures NonEmpty(hist[m..]) && (n < |hist| ==> hist[n].buf != [])
  {
    assert n < |hist| ==> hist[n..][0] == hist[n];
    assert hist[m..] == hist[n..][m - n..];
  }

  lemma {:induction false} InvBounds(p: Pair, init: u32)
    requires Inv(p, init)
    ensures p.taken <= |p.hist|
  {}

  lemma {:induction false} CatchUp(p: Pair, init: u32) returns (more: seq<Action>)
    requires Inv(p, init) && p.taken <= |p.hist| && NonEmpty(p.hist[p.taken..])
    ensures MovedOn(p, RunPair(p, more), init) && RunPair(p, more).taken == |p.hist|
    decreases |p.hist| - p.taken
  {
    if p.taken == |p.hist| {
      more := [];
    } else {
      TailNonEmpty(p.hist, p.taken, p.taken);
      NextArrives(p, init);
      more := CatchUpFrom(p, Step(p, DeliverData(p.taken)), init);
      RunCons(p, DeliverData(p.taken), more);
      more := [DeliverData(p.taken)] + more;
    }
  }

  lemma {:induction false} CatchUpFrom(p: Pair, n: Pair, init: u32) returns (more: seq<Action>)
    requires p.taken < |p.hist| && NonEmpty(p.hist[p.taken..]) && MovedOn(p, n, init) && p.taken < n.taken
    ensures MovedOn(p, RunPair(n, more), init) && RunPair(n, more).taken == |p.hist|
    decreases |p.hist| - p.taken, 0
  {
    InvBounds(n, init);
    TailNonEmpty(p.hist, p.taken, n.taken);
    more := CatchUp(n, init);
  }

  // ----- an empty chunk stops everything behind it -----

  /** Whatever happens, nothing at or behind an empty chunk is ever taken. */
  lemma {:induction false} EmptyChunkStalls(settings: AssocTxSettings, inStreams: u16, limit: nat, now: nat,
                                            actions: seq<Action>, more: seq<Action>, i: nat)
    requires Compatible(settings, inStreams, limit)
    requires var p := RunPair(NewPair(settings, inStreams, limit, now), actions);
      i < |p.hist| && p.hist[i].buf == []
    ensures var p := RunPair(NewPair(settings, inStreams, limit, now), actions);
      RunPair(p, more).taken <= i < |RunPair(p, more).hist|
  {
    var p0 := NewPair(settings, inStreams, limit, now);
    RunAppend(p0, actions, more);
    HistoryKept(RunPair(p0, actions), more);
    TakenChunkHasBytes(settings, inStreams, limit, now, actions + more, i);
  }

  lemma {:induction false} EmptyOnItsWay(hist: seq<DataChunk>, n: nat) returns (i: nat)
    requires n <= |hist| && !NonEmpty(hist[n..])
    ensures n <= i < |hist| && hist[i].buf == []
  {
    var k :| 0 <= k < |hist[n..]| && hist[n..][k].buf == [];
    i := n + k;
  }

  /** In every run: some continuation takes everything that was sent, exactly if no chunk on its way is empty. */
  lemma {:induction false} CatchesUpExactly(settings: AssocTxSettings, inStreams: u16, limit: nat, now: nat,
                                            actions: seq<Action>)
    requires Compatible(settings, inStreams, limit)
    ensures var p := RunPair(NewPair(settings, inStreams, limit, now), actions);
      && p.taken <= |p.hist|
      && (NonEmpty(p.hist[p.taken..]) <==> exists more :: RunPair(p, more).taken == |RunPair(p, more).hist|)
  {
    var p := RunPair(NewPair(settings, inStreams, limit, now), actions);
    InvAlways(settings, inStreams, limit, now, actions);
    InvBounds(p, settings.initTsn);
    if NonEmpty(p.hist[p.taken..]) {
      var more := CatchUp(p, settings.initTsn);
      assert RunPair(p, more).taken == |RunPair(p, more).hist|;
    } else {
      var i := EmptyOnItsWay(p.hist, p.taken);
      forall more ensures RunPair(p, more).taken != |RunPair(p, more).hist| {
        EmptyChunkStalls(settings, inStreams, limit, now, actions, more, i);
      }
    }
  }

  // ----- and the application gets it -----

  /** Polling hands over everything that waits. */
  lemma {:induction false} HandOver(p: Pair, init: u32) returns (more: seq<Action>)
    requires Inv(p, init) && p.rx.shutdown.None?
    ensures var q := RunPair(p, more);
      && Inv(q, init) && q.rx.ordered == [] && q.rx.unordered == []
      && q.hist == p.hist && q.taken == p.taken && q.accepted == p.accepted && q.tx == p.tx
    decreases |p.rx.ordered| + |p.rx.unordered|
  {
    if p.rx.ordered == [] && p.rx.unordered == [] {
      more := [];
    } else {
      InvStep(p, init, PollMessage);
      var rest := HandOver(Step(p, PollMessage), init);
      RunCons(p, PollMessage, rest);
      more := [PollMessage] + rest;
    }
  }

  lemma {:induction false} NothingWaits(p: Pair, init: u32)
    requires Inv(p, init) && p.taken == |p.hist| && p.rx.ordered == [] && p.rx.unordered == []
    ensures p.ordered == Select(Completed(p.hist), false) && p.unordered == Select(Completed(p.hist), true)
  {
    AppendNothing(p.ordered);
    AppendNothing(p.unordered);
    assert p.hist[..p.taken] == p.hist;
    assert RT.MessagesOf([]) == [];
  }

  lemma {:induction false} DeliverEverything(p: Pair, init: u32) returns (more: seq<Action>)
    requires Inv(p, init) && p.rx.shutdown.None? && p.taken <= |p.hist| && NonEmpty(p.hist[p.taken..])
    ensures var q := RunPair(p, more);
      q.ordered == Select(Completed(p.hist), false) && q.unordered == Select(Completed(p.hist), true)
  {
    var first := CatchUp(p, init);
    var second := HandOver(RunPair(p, first), init);
    RunAppend(p, first, second);
    NothingWaits(RunPair(RunPair(p, first), second), init);
    more := first + second;
  }

  lemma {:induction false} AllIsSent(p: Pair, init: u32)
    requires Inv(p, init) && p.tx.outQueue == []
    ensures Completed(p.hist) == p.accepted
  {
    AppendNothing(p.hist);
  }

  /** In every run in which no chunk on its way is empty and the receiver was not shut down, some continuation hands
      over exactly the messages that the chunks sent so far complete; these are all the accepted ones if nothing waits
      to be sent. Whether what waits can be sent is another question, see `ClosedWindow`. */
  lemma {:induction false} CanDeliverEverything(settings: AssocTxSettings, inStreams: u16, limit: nat, now: nat,
                                                actions: seq<Action>)
    requires Compatible(settings, inStreams, limit)
    requires var p := RunPair(NewPair(settings, inStreams, limit, now), actions);
      p.rx.shutdown.None? && p.taken <= |p.hist| && NonEmpty(p.hist[p.taken..])
    ensures var p := RunPair(NewPair(settings, inStreams, limit, now), actions);
      && (exists more :: && RunPair(p, more).ordered == Select(Completed(p.hist), false)
                         && RunPair(p, more).unordered == Select(Completed(p.hist), true))
      && (p.tx.outQueue == [] ==> Completed(p.hist) == p.accepted)
  {
    InvAlways(settings, inStreams, limit, now, actions);
    var p := RunPair(NewPair(settings, inStreams, limit, now), actions);
    var more := DeliverEverything(p, settings.initTsn);
    if p.tx.outQueue == [] {
      AllIsSent(p, settings.initTsn);
    }
  }
}
