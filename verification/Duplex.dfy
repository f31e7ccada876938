/** Two complete ends of an association, with data, acknowledgements and signals in both directions: each direction is a
    run of a sender and a receiver as in `Association`. */
module Duplex {
  import opened Association
  import opened AssociationSafety
  import opened Basics
  import opened CatchingUp
  import opened Chunks
  import L = LostSack
  import opened Messages
  import opened Nodes
  import RT = RxTracking
  import RxModel
  import opened SerialNumber
  import opened TxInvariants
  import opened TxModel

  // ----- the system -----

  /** The end A consists of the transmitter of `ab` and the receiver of `ba`, the end B of the other two. The wires hold
      every chunk that was ever sent; the other fields of the pairs only record what happened. */
  datatype System = System(ab: Pair, ba: Pair, wireAB: set<Chunk>, wireBA: set<Chunk>)

  function Flip(s: System): System { System(s.ba, s.ab, s.wireBA, s.wireAB) }

  function EndA(s: System): Node { Node(s.ab.tx, s.ba.rx) }

  /** What happens at one end: its application or its timers act on the transmitter, a chunk arrives, the notifications
      of the receiver are passed to the transmitter, or the application fetches a message. */
  datatype Event =
    | Local(op: TxOp)
    | Arrival(chunk: Chunk, now: nat)
    | Pass(next: nat)
    | Fetch

  datatype Act = Act(atA: bool, event: Event)

  /** What an operation of the transmitter puts on the wire. */
  function Emitted(s: TxState, op: TxOp): set<Chunk> {
    match op
    case PollDataOp(limit, packed, now) =>
      var result := PollData(s, limit, packed, now).1;
      if result.Polled? then {Data(result.value)} else {}
    case PollSignalOp(limit, packed, now) =>
      var result := PollSignal(s, limit, packed, now).1;
      if result.Polled? then {result.value} else {}
    case _ => {}
  }

  /** The TSNs in a SACK are near enough to those of the sender to be compared with them. */
  ghost predicate NearSack(p: Pair, sack: SelectiveAck) {
    forall r :: r in p.sacks && r.sack == sack ==> -TSN_RADIUS <= r.covers - Kept(p) <= TSN_RADIUS
  }

  ghost predicate NearNotes(p: Pair, notes: seq<TxNotification>, next: nat) {
    notes == [] ||
    var before, note := notes[..|notes| - 1], notes[|notes| - 1];
    NearNotes(p, before, next) && (note.PeerSAck? ==> NearSack(p.(tx := Give(p.tx, before, next)), note.sack))
  }

  ghost predicate NearData(p: Pair, d: DataChunk) {
    forall i :: 0 <= i < |p.hist| && p.hist[i] == d ==> -TSN_RADIUS <= i - p.taken <= TSN_RADIUS
  }

  /** What arrives was sent; an empty chunk has no wire form; and TSNs can only be compared when they are near. */
  ghost predicate Enabled(s: System, e: Event) {
    match e
    case Local(op) => !op.NotifyOp?
    case Arrival(c, _) => c in s.wireBA && (c.Data? ==> c.data.buf != [] && NearData(s.ba, c.data))
    case Pass(next) => NearNotes(s.ab, s.ba.rx.notes, next)
    case Fetch => true
  }

  /** The receiver of A after an arrival, with the record of what it has taken and written. */
  function Receive(p: Pair, c: Chunk, now: nat): Pair {
    var rx := Arrived(Node(p.tx, p.rx), c, now).rx;
    var taken := if c.Data? then RT.TakenAfter(p.rx, c.data, p.taken) else p.taken;
    p.(rx := rx, taken := taken, sacks := p.sacks + if c.Data? then NewSacks(p.rx, rx, taken) else {})
  }

  /** An event at A. */
  function AtA(s: System, e: Event): System {
    match e
    case Local(op) =>
      var tx := Apply(s.ab.tx, op);
      s.(ab := s.ab.(tx := tx, hist := s.ab.hist + NewChunks(s.ab.tx, op),
                     accepted := s.ab.accepted + NewMessages(s.ab.tx, op)),
         wireAB := s.wireAB + Emitted(s.ab.tx, op))
    case Arrival(c, now) => s.(ba := Receive(s.ba, c, now))
    case Pass(next) =>
      var end := Pump(EndA(s), next);
      s.(ab := s.ab.(tx := end.tx), ba := s.ba.(rx := end.rx))
    case Fetch =>
      var (rx, result) := RxModel.PollData(s.ba.rx);
      s.(ba := s.ba.(rx := rx, ordered := s.ba.ordered + RT.Handed(result, false),
                     unordered := s.ba.unordered + RT.Handed(result, true)))
  }

  ghost predicate CanAct(s: System, a: Act) { Enabled(if a.atA then s else Flip(s), a.event) }

  /** An event that cannot happen changes nothing. */
  ghost function Next(s: System, a: Act): System {
    if !CanAct(s, a) then s else if a.atA then AtA(s, a.event) else Flip(AtA(Flip(s), a.event))
  }

  ghost function RunSystem(s: System, acts: seq<Act>): System {
    if acts == [] then s else Next(RunSystem(s, acts[..|acts| - 1]), acts[|acts| - 1])
  }

  // ----- where everything comes from -----

  ghost predicate Known(sacks: set<SackRecord>, sack: SelectiveAck) { exists r :: r in sacks && r.sack == sack }

  /** A chunk that an end sends about what it received: if it is a SACK, its receiver has written it. */
  ghost predicate KnownSignal(sacks: set<SackRecord>, c: Chunk) {
    !c.Data? && RxModel.IsImplemented(c) && (c.SAck? ==> Known(sacks, c.sack))
  }

  /** What is on the wire from the sender of `y` to its receiver: chunks of `y`, and SACKs for `x`. */
  ghost predicate WireKnown(wire: set<Chunk>, y: Pair, x: Pair) {
    forall c :: c in wire ==> if c.Data? then c.data in y.hist else KnownSignal(x.sacks, c)
  }

  /** What the receiver of `y` wants to tell the transmitter of `x`: SACKs for `y` to be sent, and SACKs for `x` that
      arrived. */
  ghost predicate NotesKnown(notes: seq<TxNotification>, y: Pair, x: Pair) {
    forall n :: n in notes ==>
      && (n.Send? ==> KnownSignal(y.sacks, n.chunk)) && (n.PeerSAck? ==> Known(x.sacks, n.sack))
  }

  ghost predicate SignalsKnown(queue: seq<Chunk>, y: Pair) { forall c :: c in queue ==> KnownSignal(y.sacks, c) }

  /** Everything that one end has and that is on its way to it. */
  ghost predicate EndKnown(x: Pair, y: Pair, wire: set<Chunk>) {
    WireKnown(wire, y, x) && NotesKnown(y.rx.notes, y, x) && SignalsKnown(x.tx.sendNext, y)
  }

  ghost predicate AllKnown(s: System) { EndKnown(s.ab, s.ba, s.wireBA) && EndKnown(s.ba, s.ab, s.wireAB) }

  /** Records only grow. */
  lemma {:induction false} StillKnown(x: Pair, y: Pair, wire: set<Chunk>, m: Pair, n: Pair)
    requires EndKnown(x, y, wire) && y.hist <= n.hist && y.sacks <= n.sacks && x.sacks <= m.sacks
    requires n.rx.notes == y.rx.notes && m.tx.sendNext == x.tx.sendNext
    ensures EndKnown(m, n, wire)
  {
    forall c | c in wire && c.Data? ensures c.data in n.hist {
      var i :| 0 <= i < |y.hist| && y.hist[i] == c.data;
      assert n.hist[i] == c.data;
    }
  }

  // ----- the transmitter acts -----

  /** What a local operation queues is no SACK. */
  lemma {:induction false} LocalSignals(s: TxState, op: TxOp, y: Pair)
    requires SignalsKnown(s.sendNext, y) && !op.NotifyOp?
    ensures SignalsKnown(Apply(s, op).sendNext, y)
    ensures forall c :: c in Emitted(s, op) && !op.PollDataOp? ==> KnownSignal(y.sacks, c)
  {
    match op
    case TrySendOp(_, _, _, _, _) =>
    case PollDataOp(limit, packed, now) => PollKeepsSignals(s, limit, packed, now);
    case PollSignalOp(_, _, _) =>
    case TimeoutOp(timeout, plan) => TimeoutSignals(s, timeout, plan, y);
    case InitiateShutdownOp =>
  }

  lemma {:induction false} TimeoutSignals(s: TxState, timeout: Timer, plan: ProbePlan, y: Pair)
    requires SignalsKnown(s.sendNext, y)
    ensures SignalsKnown(HandleTimeout(s, timeout, plan).sendNext, y)
  {
    RtoKeepsSignals(s, timeout.at);
  }

  lemma {:induction false} LocalIsKnown(s: System, op: TxOp, init: u32)
    requires AllKnown(s) && Inv(s.ab, init) && !op.NotifyOp?
    ensures AllKnown(AtA(s, Local(op)))
  {
    var t := AtA(s, Local(op));
    LocalSignals(s.ab.tx, op, s.ba);
    StillKnown(s.ba, s.ab, s.wireAB, s.ba, t.ab);
    if op.PollDataOp? {
      OnlyOriginalsOnTheWire(s.ab, init, op.limit, op.packed, op.now);
    }
    assert WireKnown(t.wireAB, t.ab, t.ba);
  }

  // ----- a chunk arrives -----

  lemma {:induction false} DataNotes(p: Pair, x: Pair, d: DataChunk, now: nat)
    requires NotesKnown(p.rx.notes, p, x)
    ensures var n := Receive(p, Data(d), now); NotesKnown(n.rx.notes, n, x)
  {
    RxModel.DataFrame(p.rx, d);
    var n := Receive(p, Data(d), now);
    if n.rx.notes != p.rx.notes {
      var sack := RxModel.MakeSack(n.rx);
      assert SackRecord(sack, n.taken) in n.sacks;
    }
  }

  lemma {:induction false} ControlNotes(p: Pair, x: Pair, c: Chunk, now: nat)
    requires NotesKnown(p.rx.notes, p, x) && KnownSignal(x.sacks, c)
    ensures NotesKnown(Receive(p, c, now).rx.notes, p, x)
  {}

  lemma {:induction false} ArrivalIsKnown(s: System, c: Chunk, now: nat)
    requires AllKnown(s) && Enabled(s, Arrival(c, now))
    ensures AllKnown(AtA(s, Arrival(c, now)))
  {
    var t := AtA(s, Arrival(c, now));
    if c.Data? {
      DataNotes(s.ba, s.ab, c.data, now);
    } else {
      ControlNotes(s.ba, s.ab, c, now);
    }
    StillKnown(s.ba, s.ab, s.wireAB, t.ba, s.ab);
  }

  // ----- notifications are passed on -----

  lemma {:induction false} NoteSignals(s: TxState, note: TxNotification, next: nat, x: Pair, y: Pair)
    requires SignalsKnown(s.sendNext, y) && NotesKnown([note], y, x)
    ensures SignalsKnown(Notify(s, note, next).sendNext, y)
  {
    assert note in [note];
    if note.PeerSAck? {
      SackKeepsSignals(s, note.sack, note.at);
    }
  }

  lemma {:induction false} NotesSplit(notes: seq<TxNotification>, x: Pair, y: Pair)
    requires NotesKnown(notes, y, x) && notes != []
    ensures NotesKnown(notes[..|notes| - 1], y, x) && NotesKnown([notes[|notes| - 1]], y, x)
  {}

  lemma {:induction false} GivenSignals(s: TxState, notes: seq<TxNotification>, next: nat, x: Pair, y: Pair)
    requires SignalsKnown(s.sendNext, y) && NotesKnown(notes, y, x)
    ensures SignalsKnown(Give(s, notes, next).sendNext, y)
  {
    if notes == [] {
    } else {
      var before := notes[..|notes| - 1];
      NotesSplit(notes, x, y);
      GivenSignals(s, before, next, x, y);
      NoteSignals(Give(s, before, next), notes[|notes| - 1], next, x, y);
    }
  }

  lemma {:induction false} PassIsKnown(s: System, next: nat)
    requires AllKnown(s)
    ensures AllKnown(AtA(s, Pass(next)))
  {
    var t := AtA(s, Pass(next));
    GivenSignals(s.ab.tx, s.ba.rx.notes, next, s.ab, s.ba);
    StillKnown(s.ba, s.ab, s.wireAB, t.ba, t.ab);
  }

  lemma {:induction false} EventIsKnown(s: System, e: Event, init: u32)
    requires AllKnown(s) && Inv(s.ab, init) && Enabled(s, e)
    ensures AllKnown(AtA(s, e))
  {
    match e
    case Local(op) => LocalIsKnown(s, op, init);
    case Arrival(c, now) => ArrivalIsKnown(s, c, now);
    case Pass(next) => PassIsKnown(s, next);
    case Fetch => FetchIsKnown(s);
  }

  lemma {:induction false} FetchIsKnown(s: System)
    requires AllKnown(s)
    ensures AllKnown(AtA(s, Fetch))
  {
    var t := AtA(s, Fetch);
    StillKnown(s.ab, s.ba, s.wireBA, s.ab, t.ba);
    StillKnown(s.ba, s.ab, s.wireAB, t.ba, s.ab);
  }

  // ----- every event is a few actions of the pairs -----

  lemma {:induction false} OneAction(p: Pair, a: Action)
    ensures RunPair(p, [a]) == Step(p, a)
  {
    assert [a][..0] == [];
  }

  lemma {:induction false} ArrivalIsAction(p: Pair, x: Pair, wire: set<Chunk>, c: Chunk, now: nat)
    returns (a: Action)
    requires WireKnown(wire, p, x) && c in wire && (c.Data? ==> c.data.buf != [] && NearData(p, c.data))
    ensures Step(p, a) == Receive(p, c, now)
  {
    if c.Data? {
      var i :| 0 <= i < |p.hist| && p.hist[i] == c.data;
      a := DeliverData(i);
    } else {
      a := DeliverControl(c, now);
      assert p.sacks + {} == p.sacks;
    }
  }

  /** One notification is one action of the sender, or the arrival of a SACK. */
  lemma {:induction false} NoteIsAction(p: Pair, y: Pair, note: TxNotification, next: nat) returns (a: Action)
    requires NotesKnown([note], y, p) && (note.PeerSAck? ==> NearSack(p, note.sack))
    ensures Step(p, a) == p.(tx := Notify(p.tx, note, next))
  {
    assert note in [note];
    if note.PeerSAck? {
      var r :| r in p.sacks && r.sack == note.sack;
      a := DeliverSack(r, note.at);
    } else {
      a := AtSender(NotifyOp(note, next));
      AppendNothing(p.hist);
      AppendNothing(p.accepted);
    }
  }

  lemma {:induction false} NotesAreActions(p: Pair, y: Pair, notes: seq<TxNotification>, next: nat)
    returns (actions: seq<Action>)
    requires NotesKnown(notes, y, p) && NearNotes(p, notes, next)
    ensures RunPair(p, actions) == p.(tx := Give(p.tx, notes, next))
  {
    if notes == [] {
      actions := [];
    } else {
      var before, note := notes[..|notes| - 1], notes[|notes| - 1];
      NotesSplit(notes, p, y);
      actions := NotesAreActions(p, y, before, next);
      var a := NoteIsAction(p.(tx := Give(p.tx, before, next)), y, note, next);
      RunAppend(p, actions, [a]);
      OneAction(RunPair(p, actions), a);
      actions := actions + [a];
    }
  }

  /** An event at A is a run of both pairs. */
  lemma {:induction false} EventIsRun(s: System, e: Event) returns (forth: seq<Action>, back: seq<Action>)
    requires AllKnown(s) && Enabled(s, e)
    ensures AtA(s, e).ab == RunPair(s.ab, forth) && AtA(s, e).ba == RunPair(s.ba, back)
  {
    forth, back := [], [];
    match e
    case Local(op) =>
      forth := [AtSender(op)];
      OneAction(s.ab, forth[0]);
    case Arrival(c, now) =>
      var a := ArrivalIsAction(s.ba, s.ab, s.wireBA, c, now);
      back := [a];
      OneAction(s.ba, a);
    case Pass(next) =>
      forth := NotesAreActions(s.ab, s.ba, s.ba.rx.notes, next);
      back := [TakeNotes];
      OneAction(s.ba, TakeNotes);
    case Fetch =>
      back := [PollMessage];
      OneAction(s.ba, PollMessage);
  }

  // ----- whole runs -----

  /** What the two ends start with: their own settings, and the limits of their receivers. */
  datatype Setup = Setup(settings: AssocTxSettings, inStreams: u16, limit: nat)

  function Start(a: Setup, b: Setup, now: nat): System {
    System(NewPair(a.settings, b.inStreams, b.limit, now), NewPair(b.settings, a.inStreams, a.limit, now), {}, {})
  }

  predicate Fits(a: Setup, b: Setup) {
    Compatible(a.settings, b.inStreams, b.limit) && Compatible(b.settings, a.inStreams, a.limit)
  }

  lemma {:induction false} NextIsRun(s: System, act: Act, a: u32, b: u32)
    returns (forth: seq<Action>, back: seq<Action>)
    requires AllKnown(s) && Inv(s.ab, a) && Inv(s.ba, b)
    ensures AllKnown(Next(s, act))
    ensures Next(s, act).ab == RunPair(s.ab, forth) && Next(s, act).ba == RunPair(s.ba, back)
  {
    forth, back := [], [];
    if CanAct(s, act) {
      if act.atA {
        EventIsKnown(s, act.event, a);
        forth, back := EventIsRun(s, act.event);
      } else {
        EventIsKnown(Flip(s), act.event, b);
        back, forth := EventIsRun(Flip(s), act.event);
      }
    }
  }

  /** Every run of two complete ends is, in each direction, a run of a sender and a receiver: all that is proved about
      those holds for it. */
  lemma {:induction false} EachDirectionIsARun(a: Setup, b: Setup, now: nat, acts: seq<Act>)
    returns (forth: seq<Action>, back: seq<Action>)
    requires Fits(a, b)
    ensures var s := RunSystem(Start(a, b, now), acts);
      && AllKnown(s)
      && s.ab == RunPair(NewPair(a.settings, b.inStreams, b.limit, now), forth)
      && s.ba == RunPair(NewPair(b.settings, a.inStreams, a.limit, now), back)
  {
    if acts == [] {
      forth, back := [], [];
    } else {
      var before := acts[..|acts| - 1];
      forth, back := EachDirectionIsARun(a, b, now, before);
      var s := RunSystem(Start(a, b, now), before);
      InvAlways(a.settings, b.inStreams, b.limit, now, forth);
      InvAlways(b.settings, a.inStreams, a.limit, now, back);
      var f, g := NextIsRun(s, acts[|acts| - 1], a.settings.initTsn, b.settings.initTsn);
      RunAppend(NewPair(a.settings, b.inStreams, b.limit, now), forth, f);
      RunAppend(NewPair(b.settings, a.inStreams, a.limit, now), back, g);
      forth, back := forth + f, back + g;
    }
  }

  /** In every run of two complete ends, both applications get prefixes of what the other one sent, and every chunk that
      arrives is of a kind that the receiver implements. */
  lemma {:induction false} BothDirectionsDeliver(a: Setup, b: Setup, now: nat, acts: seq<Act>)
    requires Fits(a, b)
    ensures var s := RunSystem(Start(a, b, now), acts);
      && s.ab.ordered <= Select(s.ab.accepted, false) && s.ab.unordered <= Select(s.ab.accepted, true)
      && s.ba.ordered <= Select(s.ba.accepted, false) && s.ba.unordered <= Select(s.ba.accepted, true)
      && forall c :: c in s.wireAB + s.wireBA ==> RxModel.IsImplemented(c)
  {
    var forth, back := EachDirectionIsARun(a, b, now, acts);
    PrefixDelivery(a.settings, b.inStreams, b.limit, now, forth);
    PrefixDelivery(b.settings, a.inStreams, a.limit, now, back);
  }

  // ----- the steps of the pair are those of the ends -----

  /** A SACK that arrives and is passed on is exactly the step of the pair. */
  lemma {:induction false} SackStep(s: System, r: SackRecord, now: nat, next: nat)
    requires s.ba.rx.notes == [] && CanHappen(s.ab, DeliverSack(r, now))
    ensures AtA(AtA(s, Arrival(SAck(r.sack), now)), Pass(next)) == s.(ab := Do(s.ab, DeliverSack(r, now)))
  {
    SackIsPassedOn(EndA(s), r.sack, now, next);
    assert s.ba.sacks + {} == s.ba.sacks;
  }

  /** An event at B. */
  function AtB(s: System, e: Event): System { Flip(AtA(Flip(s), e)) }

  /** A chunk arrives at B and is passed on, and B is polled for a signal. */
  function Answer(s: System, d: DataChunk, limit: nat, now: nat, next: nat): System {
    AtB(AtB(AtB(s, Arrival(Data(d), now)), Pass(next)), Local(PollSignalOp(limit, 0, now)))
  }

  lemma {:induction false} SignalIsEmitted(s: TxState, limit: nat, now: nat, c: Chunk)
    requires PollSignal(s, limit, 0, now).1 == Polled(c)
    ensures Emitted(s, PollSignalOp(limit, 0, now)) == {c}
  {}

  lemma {:induction false} AnswerLeaves(s: System, i: nat, limit: nat, now: nat, next: nat, sack: SelectiveAck)
    requires CanHappen(s.ab, DeliverData(i)) && NothingPending(EndA(Flip(s)))
    requires PollSignal(Handled(EndA(Flip(s)), Data(s.ab.hist[i]), now, next).tx, limit, 0, now).1 == Polled(SAck(sack))
    ensures var t, arrived := Answer(s, s.ab.hist[i], limit, now, next), Do(s.ab, DeliverData(i));
      && SAck(sack) in t.wireBA && t.ab == arrived.(rx := arrived.rx.(notes := []))
      && t.ba.rx == s.ba.rx && t.ba.hist == s.ba.hist && t.ba.sacks == s.ba.sacks
  {
    var d := s.ab.hist[i];
    var after := AtB(AtB(s, Arrival(Data(d), now)), Pass(next));
    assert after.ba.tx == Handled(EndA(Flip(s)), Data(d), now, next).tx;
    SignalIsEmitted(after.ba.tx, limit, now, SAck(sack));
    AppendNothing(s.ba.hist);
  }

  /** A chunk that arrives for the first time is acknowledged: if B has nothing else to signal, its next signal is the
      SACK for everything that it has by then. */
  lemma {:induction false} ArrivalIsAcknowledged(s: System, init: u32, i: nat, limit: nat, now: nat, next: nat)
    requires Inv(s.ab, init) && CanHappen(s.ab, DeliverData(i)) && !RT.IsAccepted(s.ab.rx, init, s.ab.taken, i)
    requires NothingPending(EndA(Flip(s))) && s.ba.tx.shutdown != Some(ShutdownSent)
    requires var sack := RxModel.MakeSack(Do(s.ab, DeliverData(i)).rx);
      SerializedSize(SAck(sack)) <= Min(limit, s.ba.tx.pmtu)
    ensures var t, arrived := Answer(s, s.ab.hist[i], limit, now, next), Do(s.ab, DeliverData(i));
      SAck(RxModel.MakeSack(arrived.rx)) in t.wireBA && t.ab == arrived.(rx := arrived.rx.(notes := []))
  {
    var d := s.ab.hist[i];
    L.SackExactlyForNew(s.ab, init, i);
    DataIsAcknowledged(EndA(Flip(s)), d, now, next, limit);
    AnswerLeaves(s, i, limit, now, next, RxModel.MakeSack(RxModel.HandleData(s.ab.rx, d)));
  }
}
