/** Fast recovery: what is repeated, in which order, and that nothing is repeated twice. */
module FastRetransmit {
  import opened Basics
  import opened Chunks
  import opened SerialNumber
  import opened TxInvariants
  import opened TxModel

  // ----- which chunks wait to be repeated -----

  predicate IsPending(e: ResendEntry) { e.markedForFastRetransmit && !e.markedWasFastRetransmit }

  /** The chunks that fast recovery still has to repeat, by TSN. */
  function Pending(q: seq<ResendEntry>): seq<DataChunk> {
    if q == [] then [] else (if IsPending(q[0]) then [q[0].data] else []) + Pending(q[1..])
  }

  /** Without the first of the pending ones, which was repeated, the others are pending as before. */
  lemma {:induction false} FirstIsRepeated(q: seq<ResendEntry>, room: nat, e: ResendEntry)
    requires forall i :: 0 <= i < |q| ==> |q[i].data.buf| <= room
    requires !IsPending(e)
    ensures var i := FirstFast(q, room);
      if i == |q| then Pending(q) == []
      else IsPending(q[i]) && Pending(q) == [q[i].data] + Pending(q[i := e])
  {
    if q == [] {
    } else if IsPending(q[0]) {
      assert WantsFastRetransmit(q[0], room);
      assert q[0 := e][1..] == q[1..];
    } else {
      FirstIsRepeated(q[1..], room, e);
      var i := FirstFast(q[1..], room);
      if i < |q| - 1 {
        assert q[i + 1 := e][1..] == q[1..][i := e];
        assert Pending(q[i + 1 := e]) == Pending(q[1..][i := e]);
      }
    }
  }

  // ----- polls in fast recovery -----

  predicate InFastRecovery(s: TxState) { s.window.phase.FastRecovery? }

  /** A poll that starts a new packet, with room for every chunk of the path. */
  predicate FullPoll(s: TxState, op: TxOp) { op.PollDataOp? && op.packed == 0 && s.pmtu <= op.limit }

  /** The chunk that an operation returns in fast recovery. */
  function Repeated(s: TxState, op: TxOp): seq<DataChunk> {
    if op.PollDataOp? && InFastRecovery(s) && PollData(s, op.limit, op.packed, op.now).1.Polled?
    then [PollData(s, op.limit, op.packed, op.now).1.value]
    else []
  }

  function AllRepeated(s: TxState, ops: seq<TxOp>): seq<DataChunk> {
    if ops == [] then []
    else AllRepeated(s, ops[..|ops| - 1]) + Repeated(Run(s, ops[..|ops| - 1]), ops[|ops| - 1])
  }

  /** A full poll returns the first pending chunk, or nothing if there is none. */
  lemma {:induction false} FullPollRepeats(s: TxState, op: TxOp)
    requires InFastRecovery(s) && Sized(s) && FullPoll(s, op)
    ensures var t := Apply(s, op);
      && Repeated(s, op) + Pending(t.resend) == Pending(s.resend)
      && (Repeated(s, op) == [] <==> Pending(s.resend) == [])
      && (Pending(s.resend) == [] ==> t == s && PollData(s, op.limit, op.packed, op.now).1 == Nothing)
  {
    var room := s.pmtu - 16;
    var i := FirstFast(s.resend, room);
    assert PollData(s, op.limit, op.packed, op.now) == PollFast(s, room);
    if i == |s.resend| {
      FirstIsRepeated(s.resend, room, ResendEntry(0, DataChunk(0, 0, 0, 0, [], false, false, false, false),
                                                  false, false, false, false));
    } else {
      FirstIsRepeated(s.resend, room,
                      s.resend[i].(markedWasFastRetransmit := true, markedForFastRetransmit := false));
    }
  }

  lemma {:induction false} TimeoutKeepsPending(s: TxState, timeout: Timer, plan: ProbePlan)
    requires InFastRecovery(s) && InFastRecovery(HandleTimeout(s, timeout, plan))
    ensures HandleTimeout(s, timeout, plan).resend == s.resend
  {}

  /** Nothing but a poll or a SACK changes what is pending. */
  lemma {:induction false} OthersKeepPending(s: TxState, op: TxOp)
    requires InFastRecovery(s) && InFastRecovery(Apply(s, op)) && Clean(op) && !IsSack(op) && !op.PollDataOp?
    ensures Apply(s, op).resend == s.resend && Repeated(s, op) == []
  {
    if op.TimeoutOp? {
      TimeoutKeepsPending(s, op.timeout, op.plan);
    }
  }

  /** A run of fast recovery: no SACK arrives, no retransmission timer runs out, and every poll starts a packet. */
  predicate Undisturbed(s: TxState, ops: seq<TxOp>) {
    && InFastRecovery(Run(s, ops))
    && (ops == [] ||
        var before, op := ops[..|ops| - 1], ops[|ops| - 1];
        && Undisturbed(s, before) && Clean(op) && !IsSack(op)
        && (op.PollDataOp? ==> FullPoll(Run(s, before), op)))
  }

  function Polls(ops: seq<TxOp>): nat {
    if ops == [] then 0 else Polls(ops[..|ops| - 1]) + if ops[|ops| - 1].PollDataOp? then 1 else 0
  }

  /** After `polls` polls: what was repeated and what is pending are what was pending at the start, in the same order,
      and every poll repeated something as long as there was something to repeat. */
  ghost predicate RepeatsFirst(repeated: seq<DataChunk>, pending: seq<DataChunk>, all: seq<DataChunk>, polls: nat) {
    repeated + pending == all && |repeated| == Min(polls, |all|)
  }

  lemma {:induction false} OneMoreRepeated(repeated: seq<DataChunk>, pending: seq<DataChunk>, all: seq<DataChunk>,
                                           polls: nat, one: seq<DataChunk>, rest: seq<DataChunk>, polled: bool)
    requires RepeatsFirst(repeated, pending, all, polls) && one + rest == pending && |one| <= 1
    requires if polled then one == [] <==> pending == [] else one == []
    ensures RepeatsFirst(repeated + one, rest, all, if polled then polls + 1 else polls)
  {
    Reassociate(repeated, one, rest);
  }

  lemma {:induction false} UndisturbedStep(s: TxState, op: TxOp)
    requires Sized(s) && Clean(op) && !IsSack(op) && InFastRecovery(s) && InFastRecovery(Apply(s, op))
    requires op.PollDataOp? ==> FullPoll(s, op)
    ensures var t, one := Apply(s, op), Repeated(s, op);
      && Sized(t) && one + Pending(t.resend) == Pending(s.resend) && |one| <= 1
      && (if op.PollDataOp? then one == [] <==> Pending(s.resend) == [] else one == [])
  {
    SizedStep(s, op);
    if op.PollDataOp? {
      FullPollRepeats(s, op);
    } else {
      OthersKeepPending(s, op);
    }
  }

  /** In fast recovery, while no SACK arrives, the polls return the pending chunks in TSN order, each exactly once:
      after n polls the first n of them were returned, and the others are still pending. */
  lemma {:induction false} RepeatsInOrder(s: TxState, ops: seq<TxOp>)
    requires Sized(s) && Undisturbed(s, ops)
    ensures Sized(Run(s, ops))
    ensures RepeatsFirst(AllRepeated(s, ops), Pending(Run(s, ops).resend), Pending(s.resend), Polls(ops))
  {
    if ops == [] {
    } else {
      var before, op := ops[..|ops| - 1], ops[|ops| - 1];
      var t := Run(s, before);
      RepeatsInOrder(s, before);
      UndisturbedStep(t, op);
      OneMoreRepeated(AllRepeated(s, before), Pending(t.resend), Pending(s.resend), Polls(before), Repeated(t, op),
                      Pending(Apply(t, op).resend), op.PollDataOp?);
    }
  }

  lemma {:induction false} SplitAt(first: seq<DataChunk>, rest: seq<DataChunk>, all: seq<DataChunk>)
    requires first + rest == all
    ensures first == all[..|first|] && (rest == [] <==> |first| == |all|)
  {}

  /** As many polls as there are pending chunks return all of them, and the next one returns nothing. */
  lemma {:induction false} RepeatsAll(s: TxState, ops: seq<TxOp>, op: TxOp)
    requires Sized(s) && Undisturbed(s, ops) && FullPoll(Run(s, ops), op)
    ensures var all := Pending(s.resend);
      && AllRepeated(s, ops) == all[..Min(Polls(ops), |all|)]
      && (PollData(Run(s, ops), op.limit, op.packed, op.now).1 == Nothing <==> Polls(ops) >= |all|)
  {
    RepeatsInOrder(s, ops);
    FullPollRepeats(Run(s, ops), op);
    SplitAt(AllRepeated(s, ops), Pending(Run(s, ops).resend), Pending(s.resend));
  }

  // ----- never twice -----

  /** How many chunks an operation forgets. */
  function ForgottenBy(s: TxState, op: TxOp): nat { if MoveOf(s, op).Forget? then MoveOf(s, op).count else 0 }

  function Forgotten(s: TxState, ops: seq<TxOp>): nat {
    if ops == [] then 0
    else Forgotten(s, ops[..|ops| - 1]) + ForgottenBy(Run(s, ops[..|ops| - 1]), ops[|ops| - 1])
  }

  function Room(s: TxState, op: TxOp): nat
    requires op.PollDataOp?
  {
    SaturatingSub(Min(op.limit, SaturatingSub(s.pmtu, op.packed)), 16)
  }

  /** The number of the chunk that an operation returns in fast recovery, if `f` chunks were forgotten before. */
  function NumberOf(s: TxState, op: TxOp, f: nat): seq<nat> {
    if Repeated(s, op) == [] then [] else [f + FirstFast(s.resend, Room(s, op))]
  }

  /** The numbers of the chunks that fast recovery repeated, counted from the first chunk of the run. */
  function RepeatedNumbers(s: TxState, ops: seq<TxOp>): seq<nat> {
    if ops == [] then []
    else
      var before, op := ops[..|ops| - 1], ops[|ops| - 1];
      RepeatedNumbers(s, before) + NumberOf(Run(s, before), op, Forgotten(s, before))
  }

  predicate Distinct(ns: seq<nat>) { forall i, j :: 0 <= i < j < |ns| ==> ns[i] != ns[j] }

  /** Every chunk from the `f`-th on that is among the repeated ones is remembered as such. */
  ghost predicate Remembers(ns: seq<nat>, f: nat, q: seq<ResendEntry>) {
    && Distinct(ns)
    && forall n :: n in ns ==> n < f + |q| && (n >= f ==> q[n - f].markedWasFastRetransmit)
  }

  /** `r` is `q` without its first `k` entries, perhaps with new ones, and remembers what was repeated. */
  predicate KeepsRepeated(q: seq<ResendEntry>, r: seq<ResendEntry>, k: nat) {
    && k <= |q| <= |r| + k
    && forall j :: k <= j < |q| && q[j].markedWasFastRetransmit ==> r[j - k].markedWasFastRetransmit
  }

  lemma {:induction false} SackKeepsRepeated(s: TxState, sack: SelectiveAck, now: nat)
    ensures KeepsRepeated(s.resend, HandleSack(s, sack, now).resend,
                          if SackMove(s, sack).Forget? then SackMove(s, sack).count else 0)
  {
    match TsnCompare(s.lastAcked, sack.cumTsn)
    case Greater =>
    case Equal => GapWalkKeepsData(s.resend, sack.blocks, sack.cumTsn);
    case Less =>
      var k := AckedCount(s.resend, sack.cumTsn);
      GapWalkKeepsData(s.resend[k..], sack.blocks, sack.cumTsn);
      assert HandleSack(s, sack, now).resend == GapWalk(s.resend[k..], sack.blocks, sack.cumTsn).0;
  }

  lemma {:induction false} RtoKeepsRepeated(s: TxState, at: nat)
    ensures KeepsRepeated(s.resend, RtoTimeout(s, at).resend, 0)
  {}

  lemma {:induction false} TimeoutKeepsRepeated(s: TxState, timeout: Timer, plan: ProbePlan)
    ensures KeepsRepeated(s.resend, HandleTimeout(s, timeout, plan).resend, 0)
  {
    RtoKeepsRepeated(s, timeout.at);
  }

  lemma {:induction false} PollKeepsRepeated(s: TxState, limit: nat, packed: nat, now: nat)
    ensures KeepsRepeated(s.resend, PollData(s, limit, packed, now).0.resend, 0)
  {}

  lemma {:induction false} KeepsRepeatedStep(s: TxState, op: TxOp)
    requires Clean(op)
    ensures KeepsRepeated(s.resend, Apply(s, op).resend, ForgottenBy(s, op))
  {
    match op
    case TrySendOp(_, _, _, _, _) =>
    case PollDataOp(limit, packed, now) => PollKeepsRepeated(s, limit, packed, now);
    case PollSignalOp(_, _, _) =>
    case TimeoutOp(timeout, plan) => TimeoutKeepsRepeated(s, timeout, plan);
    case NotifyOp(note, _) =>
      if note.PeerSAck? {
        SackKeepsRepeated(s, note.sack, note.at);
      }
    case InitiateShutdownOp =>
  }

  /** What is repeated was not repeated before, and is remembered. */
  lemma {:induction false} RepeatIsNew(s: TxState, op: TxOp)
    requires Repeated(s, op) != []
    ensures var i, t := FirstFast(s.resend, Room(s, op)), Apply(s, op);
      && ForgottenBy(s, op) == 0 && i < |s.resend| == |t.resend|
      && !s.resend[i].markedWasFastRetransmit && t.resend[i].markedWasFastRetransmit
      && Repeated(s, op) == [s.resend[i].data]
  {}

  lemma {:induction false} StillRemembers(ns: seq<nat>, f: nat, q: seq<ResendEntry>, r: seq<ResendEntry>, k: nat)
    requires Remembers(ns, f, q) && KeepsRepeated(q, r, k)
    ensures Remembers(ns, f + k, r)
  {
    forall n | n in ns ensures n < f + k + |r| && (n >= f + k ==> r[n - (f + k)].markedWasFastRetransmit) {
      if n >= f + k {
        assert q[n - f].markedWasFastRetransmit;
      }
    }
  }

  lemma {:induction false} RemembersOneMore(ns: seq<nat>, f: nat, q: seq<ResendEntry>, r: seq<ResendEntry>, i: nat)
    requires Remembers(ns, f, q) && KeepsRepeated(q, r, 0) && i < |q|
    requires !q[i].markedWasFastRetransmit && r[i].markedWasFastRetransmit
    ensures Remembers(ns + [f + i], f, r)
  {
    StillRemembers(ns, f, q, r, 0);
    forall n | n in ns ensures n != f + i {
      if n >= f {
        assert q[n - f].markedWasFastRetransmit;
      }
    }
    var all := ns + [f + i];
    forall n | n in all ensures n < f + |r| && (n >= f ==> r[n - f].markedWasFastRetransmit) {
      assert n in ns || n == f + i;
    }
    forall j, k | 0 <= j < k < |all| ensures all[j] != all[k] {
      assert all[j] in ns;
    }
  }

  lemma {:induction false} RemembersStep(ns: seq<nat>, f: nat, s: TxState, op: TxOp)
    requires Remembers(ns, f, s.resend) && Clean(op)
    ensures Remembers(ns + NumberOf(s, op, f), f + ForgottenBy(s, op), Apply(s, op).resend)
  {
    KeepsRepeatedStep(s, op);
    if Repeated(s, op) == [] {
      AppendNothing(ns);
      StillRemembers(ns, f, s.resend, Apply(s, op).resend, ForgottenBy(s, op));
    } else {
      RepeatIsNew(s, op);
      RemembersOneMore(ns, f, s.resend, Apply(s, op).resend, FirstFast(s.resend, Room(s, op)));
    }
  }

  lemma {:induction false} LastNumbers(s: TxState, ops: seq<TxOp>)
    requires ops != []
    ensures var before, op := ops[..|ops| - 1], ops[|ops| - 1];
      && RepeatedNumbers(s, ops) == RepeatedNumbers(s, before) + NumberOf(Run(s, before), op, Forgotten(s, before))
      && Forgotten(s, ops) == Forgotten(s, before) + ForgottenBy(Run(s, before), op)
  {}

  lemma {:induction false} RunRemembers(s: TxState, ops: seq<TxOp>)
    requires s.resend == [] && forall i :: 0 <= i < |ops| ==> Clean(ops[i])
    ensures Remembers(RepeatedNumbers(s, ops), Forgotten(s, ops), Run(s, ops).resend)
  {
    if ops == [] {
    } else {
      var before, op := ops[..|ops| - 1], ops[|ops| - 1];
      RunRemembers(s, before);
      LastNumbers(s, ops);
      RemembersStep(RepeatedNumbers(s, before), Forgotten(s, before), Run(s, before), op);
    }
  }

  // ----- the numbers are those of the TSNs -----

  lemma {:induction false} MoveCounts(c: Core, m: Move, init: u32, f: nat)
    requires CanMove(c, m) && c.tsnCounter == At(init, f + |c.sent|)
    ensures var k := if m.Forget? then m.count else 0;
      Moved(c, m).tsnCounter == At(init, f + k + |Moved(c, m).sent|)
  {
    AtStep(init, f + |c.sent|);
  }

  /** After `f` forgotten chunks, the queue ends right before the TSN counter. */
  predicate CountsFrom(s: TxState, init: u32, f: nat) { s.tsnCounter == At(init, f + |s.resend|) }

  lemma {:induction false} CounterStep(s: TxState, op: TxOp, init: u32, f: nat)
    requires Clean(op) && CountsFrom(s, init, f)
    ensures CountsFrom(Apply(s, op), init, f + ForgottenBy(s, op))
  {
    EveryOperationIsAMove(s, op);
    MoveCounts(CoreOf(s), MoveOf(s, op), init, f);
    assert |CoreOf(Apply(s, op)).sent| == |Apply(s, op).resend|;
  }

  lemma {:induction false} NumberedBy(s: TxState, init: u32, f: nat, i: nat)
    requires Numbered(CoreOf(s)) && CountsFrom(s, init, f) && i < |s.resend|
    ensures s.resend[i].data.tsn == At(init, f + i)
  {
    assert s.resend[i].data == CoreOf(s).sent[i];
  }

  /** The `k`-th repeated chunk is the one with the `k`-th number. */
  ghost predicate NamesChunks(repeated: seq<DataChunk>, ns: seq<nat>, init: u32) {
    |repeated| == |ns| && forall k :: 0 <= k < |ns| ==> repeated[k].tsn == At(init, ns[k])
  }

  lemma {:induction false} NamesStep(repeated: seq<DataChunk>, ns: seq<nat>, init: u32, f: nat, s: TxState, op: TxOp)
    requires NamesChunks(repeated, ns, init) && Sound(s) && CountsFrom(s, init, f)
    ensures NamesChunks(repeated + Repeated(s, op), ns + NumberOf(s, op, f), init)
  {
    if Repeated(s, op) == [] {
      AppendNothing(repeated);
      AppendNothing(ns);
    } else {
      RepeatIsNew(s, op);
      NumberedBy(s, init, f, FirstFast(s.resend, Room(s, op)));
    }
  }

  lemma {:induction false} RunCounts(s: TxState, ops: seq<TxOp>, init: u32)
    requires s.resend == [] && s.tsnCounter == init && forall i :: 0 <= i < |ops| ==> Clean(ops[i])
    ensures CountsFrom(Run(s, ops), init, Forgotten(s, ops))
  {
    if ops == [] {
    } else {
      var before, op := ops[..|ops| - 1], ops[|ops| - 1];
      RunCounts(s, before, init);
      CounterStep(Run(s, before), op, init, Forgotten(s, before));
    }
  }

  lemma {:induction false} RunNames(settings: AssocTxSettings, start: nat, ops: seq<TxOp>)
    requires forall i :: 0 <= i < |ops| ==> Clean(ops[i])
    ensures var s := NewTx(settings, start);
      NamesChunks(AllRepeated(s, ops), RepeatedNumbers(s, ops), settings.initTsn)
  {
    if ops == [] {
    } else {
      var s, before, op := NewTx(settings, start), ops[..|ops| - 1], ops[|ops| - 1];
      RunNames(settings, start, before);
      TransmitterConserves(settings, start, before);
      RunCounts(s, before, settings.initTsn);
      NamesStep(AllRepeated(s, before), RepeatedNumbers(s, before), settings.initTsn, Forgotten(s, before),
                Run(s, before), op);
    }
  }

  /** Over every run, whatever SACKs arrive and however often fast recovery is entered: no chunk is repeated by fast
      recovery twice. The numbers are those of the unbounded TSNs. */
  lemma {:induction false} RepeatedAtMostOnce(settings: AssocTxSettings, start: nat, ops: seq<TxOp>)
    requires forall i :: 0 <= i < |ops| ==> Clean(ops[i])
    ensures var s := NewTx(settings, start);
      && Distinct(RepeatedNumbers(s, ops))
      && NamesChunks(AllRepeated(s, ops), RepeatedNumbers(s, ops), settings.initTsn)
  {
    RunRemembers(NewTx(settings, start), ops);
    RunNames(settings, start, ops);
  }
}
