/** Which messages leave the queue completely, and which ones block it for good. */
module Fragmentation {
  import opened Basics
  import opened TxModel
  import opened TxInvariants

  // ----- lengths -----

  /** Whether a message of `length` bytes leaves completely when it is cut into pieces of `room` bytes: what fits is
      sent, the next sixteen lengths are neither sent nor cut, and anything longer loses one piece. */
  predicate Leaves(length: nat, room: nat)
    requires room > 0
  {
    if length <= room then true
    else if length <= room + 16 then false
    else Leaves(length - room, room)
  }

  /** The number of chunks that a message of `length` bytes takes. */
  function Pieces(length: nat, room: nat): nat
    requires room > 0
  {
    if length <= room + 16 then 1 else 1 + Pieces(length - room, room)
  }

  lemma {:induction false} AtLeastOneTimes(k: int, m: nat)
    requires k >= 1
    ensures k * m >= m
  {
    assert k * m == (k - 1) * m + m;
  }

  lemma {:induction false} RemainderIsUnique(q: int, p: int, m: nat, r: nat, t: nat)
    requires q * m + r == p * m + t && r < m && t < m
    ensures r == t
  {
    if q > p {
      assert (q - p) * m == q * m - p * m;
      AtLeastOneTimes(q - p, m);
    } else if q < p {
      assert (p - q) * m == p * m - q * m;
      AtLeastOneTimes(p - q, m);
    }
  }

  lemma {:induction false} ModuloOneLess(x: nat, m: nat)
    requires m > 0 && x >= m
    ensures (x - m) % m == x % m
  {
    var q, p := (x - m) / m, x / m;
    assert (q + 1) * m == q * m + m;
    RemainderIsUnique(q + 1, p, m, (x - m) % m, x % m);
  }

  /** The closed form: it fits, or the last piece is longer than sixteen bytes. */
  lemma {:induction false} LeavesExactly(length: nat, room: nat)
    requires room > 16
    ensures Leaves(length, room) <==> length <= room || (length - 1) % room >= 16
  {
    if length <= room {
    } else {
      ModuloOneLess(length - 1, room);
      if length > room + 16 {
        LeavesExactly(length - room, room);
      }
    }
  }

  // ----- runs -----

  /** The path MTU stays the same, and whatever is cut off a message fills a packet. */
  predicate FullFragments(s: TxState, ops: seq<TxOp>) {
    ops == [] ||
    var before, op := ops[..|ops| - 1], ops[|ops| - 1];
    var t := Run(s, before);
    && FullFragments(s, before) && Clean(op) && Apply(t, op).pmtu == s.pmtu
    && (MoveOf(t, op).SendFragment? ==> MoveOf(t, op).size == s.pmtu - 16)
  }

  /** A poll of an empty packet while both windows are open. */
  predicate OpenPoll(s: TxState, op: TxOp) {
    && op.PollDataOp? && op.packed == 0 && s.pmtu <= op.limit
    && (s.window.phase.SlowStart? || s.window.phase.CongestionAvoidance?)
    && s.inFlight <= s.window.cwnd && s.pmtu - 16 <= s.peerWindow
  }

  function OpenPolls(s: TxState, ops: seq<TxOp>): nat {
    if ops == [] then 0
    else
      var before, op := ops[..|ops| - 1], ops[|ops| - 1];
      OpenPolls(s, before) + (if OpenPoll(Run(s, before), op) then 1 else 0)
  }

  /** How many messages left the queue completely. */
  function LeftCompletely(s: TxState, ops: seq<TxOp>): nat {
    if ops == [] then 0
    else
      var before, op := ops[..|ops| - 1], ops[|ops| - 1];
      LeftCompletely(s, before) + (if MoveOf(Run(s, before), op).SendWhole? then 1 else 0)
  }

  /** What is left of the front message. */
  function Rest(s: TxState): nat
    requires s.outQueue != []
  {
    |s.outQueue[0].buf|
  }

  /** An open poll sends the front, or a full piece of it, exactly unless its length is one of the sixteen. */
  lemma {:induction false} OpenPollMoves(s: TxState, op: TxOp)
    requires OpenPoll(s, op) && s.outQueue != []
    ensures var m, room := MoveOf(s, op), s.pmtu - 16;
      if Rest(s) <= room then m.SendWhole?
      else if Rest(s) <= room + 16 then m.Stay?
      else m == SendFragment(room)
  {}

  /** The front has one of the sixteen lengths that are neither sent nor cut. */
  predicate BlockedFront(s: TxState) { s.outQueue != [] && s.pmtu - 16 < Rest(s) <= s.pmtu }

  /** No poll whatsoever sends a front of one of the sixteen lengths. */
  lemma {:induction false} BlockedMoves(s: TxState, op: TxOp)
    requires BlockedFront(s)
    ensures !MoveOf(s, op).SendWhole? && !MoveOf(s, op).SendFragment?
  {}

  /** A poll only sends whole what fits into a packet, and only cuts what does not. */
  lemma {:induction false} MovesFit(s: TxState, op: TxOp)
    requires Clean(op) && s.outQueue != []
    ensures MoveOf(s, op).SendWhole? ==> Rest(s) <= s.pmtu - 16
    ensures MoveOf(s, op).SendFragment? ==> Rest(s) > s.pmtu
  {}

  /** What an operation leaves of the front, unless it sends the front completely. */
  lemma {:induction false} FrontAfter(s: TxState, op: TxOp)
    requires Clean(op) && s.outQueue != [] && !MoveOf(s, op).SendWhole?
    ensures var m, t := MoveOf(s, op), Apply(s, op);
      && t.outQueue != [] && s.outQueue[1..] <= t.outQueue[1..]
      && Rest(t) == Rest(s) - (if m.SendFragment? then m.size else 0)
  {
    EveryOperationIsAMove(s, op);
    assert Apply(s, op).outQueue == CoreOf(Apply(s, op)).outQueue;
  }

  // ----- one message over a whole run -----

  /** As long as the front message of `s` is not gone: it is still the front, whether it can leave has not changed, and
      every open poll has taken one piece of it. */
  ghost predicate StillThere(s: TxState, t: TxState, polls: nat)
    requires s.outQueue != []
  {
    var room := s.pmtu - 16;
    && t.outQueue != [] && s.outQueue[1..] <= t.outQueue[1..] && t.pmtu == s.pmtu
    && (Leaves(Rest(t), room) <==> Leaves(Rest(s), room))
    && (Leaves(Rest(s), room) ==> polls + Pieces(Rest(t), room) <= Pieces(Rest(s), room))
  }

  /** Cutting off one full piece changes nothing about whether the rest leaves, and leaves one piece less. */
  lemma {:induction false} OnePieceLess(length: nat, room: nat)
    requires room > 0 && length > room + 16
    ensures Leaves(length - room, room) <==> Leaves(length, room)
    ensures Pieces(length, room) == 1 + Pieces(length - room, room)
  {}

  /** An operation that does not send the front completely takes nothing of it, or one full piece. */
  lemma {:induction false} FrontLosesAPiece(t: TxState, op: TxOp)
    requires t.outQueue != [] && Clean(op) && !MoveOf(t, op).SendWhole?
    requires MoveOf(t, op).SendFragment? ==> MoveOf(t, op).size == t.pmtu - 16
    ensures var n, room := Apply(t, op), t.pmtu - 16;
      && n.outQueue != [] && t.outQueue[1..] <= n.outQueue[1..]
      && (if MoveOf(t, op).SendFragment? then Rest(t) > room + 16 && Rest(n) == Rest(t) - room else Rest(n) == Rest(t))
      && (OpenPoll(t, op) && !MoveOf(t, op).SendFragment? ==> !Leaves(Rest(t), room))
  {
    FrontAfter(t, op);
    MovesFit(t, op);
    if OpenPoll(t, op) {
      OpenPollMoves(t, op);
    }
  }

  lemma {:induction false} StillThereStep(s: TxState, t: TxState, polls: nat, op: TxOp)
    requires s.outQueue != [] && StillThere(s, t, polls) && Clean(op) && Apply(t, op).pmtu == s.pmtu
    requires !MoveOf(t, op).SendWhole? && (MoveOf(t, op).SendFragment? ==> MoveOf(t, op).size == s.pmtu - 16)
    ensures StillThere(s, Apply(t, op), if OpenPoll(t, op) then polls + 1 else polls)
  {
    FrontLosesAPiece(t, op);
    if MoveOf(t, op).SendFragment? {
      OnePieceLess(Rest(t), t.pmtu - 16);
    }
  }

  lemma {:induction false} RunTracksFront(s: TxState, ops: seq<TxOp>)
    requires s.outQueue != [] && FullFragments(s, ops)
    ensures LeftCompletely(s, ops) == 0 ==> StillThere(s, Run(s, ops), OpenPolls(s, ops))
    ensures LeftCompletely(s, ops) > 0 ==> Leaves(Rest(s), s.pmtu - 16)
  {
    if ops == [] {
    } else {
      var before, op := ops[..|ops| - 1], ops[|ops| - 1];
      var t := Run(s, before);
      RunTracksFront(s, before);
      if LeftCompletely(s, before) == 0 {
        MovesFit(t, op);
        if !MoveOf(t, op).SendWhole? {
          StillThereStep(s, t, OpenPolls(s, before), op);
        }
      }
    }
  }

  /** From `s` to `t`, with `polls` open polls and `left` messages gone: the front message of `s` is gone if there were
      enough polls, or it has not left and neither has anything behind it. */
  ghost predicate GoneOrBlocked(s: TxState, t: TxState, polls: nat, left: nat, leaves: bool)
    requires s.outQueue != []
  {
    if leaves then polls >= Pieces(Rest(s), s.pmtu - 16) ==> left > 0
    else left == 0 && t.outQueue != [] && s.outQueue[1..] <= t.outQueue[1..]
  }

  lemma {:induction false} LeavesOrBlocks(s: TxState, t: TxState, polls: nat, left: nat)
    requires s.outQueue != [] && (left == 0 ==> StillThere(s, t, polls)) && (left > 0 ==> Leaves(Rest(s), s.pmtu - 16))
    ensures GoneOrBlocked(s, t, polls, left, Leaves(Rest(s), s.pmtu - 16))
  {}

  lemma {:induction false} RunLeavesOrBlocks(s: TxState, ops: seq<TxOp>, leaves: bool)
    requires s.outQueue != [] && FullFragments(s, ops) && leaves == Leaves(Rest(s), s.pmtu - 16)
    ensures GoneOrBlocked(s, Run(s, ops), OpenPolls(s, ops), LeftCompletely(s, ops), leaves)
  {
    RunTracksFront(s, ops);
    LeavesOrBlocks(s, Run(s, ops), OpenPolls(s, ops), LeftCompletely(s, ops));
  }

  /** The message fits into one packet, or the last of its full pieces leaves more than sixteen bytes. */
  predicate Sendable(length: nat, room: nat)
    requires room > 0
  {
    length <= room || (length - 1) % room >= 16
  }

  /** A message leaves the queue completely exactly if it is sendable: in every run with the same path MTU and full
      fragments, however long, it is gone after at most `Pieces` polls with open windows, or it never leaves and
      neither does anything behind it. */
  lemma {:induction false} MessageLeavesExactly(s: TxState, ops: seq<TxOp>, length: nat)
    requires s.outQueue != [] && |s.outQueue[0].buf| == length && FullFragments(s, ops)
    ensures GoneOrBlocked(s, Run(s, ops), OpenPolls(s, ops), LeftCompletely(s, ops), Sendable(length, s.pmtu - 16))
  {
    LeavesExactly(length, s.pmtu - 16);
    RunLeavesOrBlocks(s, ops, Sendable(length, s.pmtu - 16));
  }

  /** A run in which the path MTU stays the same. It never shrinks, so it is enough to compare the ends. */
  predicate SamePath(s: TxState, ops: seq<TxOp>) {
    (forall i :: 0 <= i < |ops| ==> Clean(ops[i])) && Run(s, ops).pmtu == s.pmtu
  }

  lemma {:induction false} RunPmtuGrows(s: TxState, ops: seq<TxOp>)
    ensures s.pmtu <= Run(s, ops).pmtu
  {
    if ops == [] {
    } else {
      RunPmtuGrows(s, ops[..|ops| - 1]);
      PmtuGrows(Run(s, ops[..|ops| - 1]), ops[|ops| - 1]);
    }
  }

  lemma {:induction false} SamePathBefore(s: TxState, ops: seq<TxOp>)
    requires ops != [] && SamePath(s, ops)
    ensures SamePath(s, ops[..|ops| - 1])
  {
    RunPmtuGrows(s, ops[..|ops| - 1]);
    PmtuGrows(Run(s, ops[..|ops| - 1]), ops[|ops| - 1]);
  }

  /** The same front as before, with nothing new sent. */
  ghost predicate NothingSent(s: TxState, t: TxState)
    requires s.outQueue != []
  {
    t.tsnCounter == s.tsnCounter && t.outQueue != [] && Rest(t) == Rest(s) && s.outQueue[1..] <= t.outQueue[1..]
  }

  lemma {:induction false} BlockedStep(s: TxState, op: TxOp)
    requires BlockedFront(s) && Clean(op)
    ensures NothingSent(s, Apply(s, op))
  {
    BlockedMoves(s, op);
    FrontAfter(s, op);
    EveryOperationIsAMove(s, op);
    assert CoreOf(Apply(s, op)).tsnCounter == s.tsnCounter;
  }

  /** Once the front has one of the sixteen lengths, the same holds for fragments of any size: nothing new is ever sent
      while the path MTU stays the same. */
  lemma {:induction false} BlockedForGood(s: TxState, ops: seq<TxOp>)
    requires BlockedFront(s) && SamePath(s, ops)
    ensures NothingSent(s, Run(s, ops)) && LeftCompletely(s, ops) == 0
  {
    if ops == [] {
    } else {
      var before, op := ops[..|ops| - 1], ops[|ops| - 1];
      SamePathBefore(s, ops);
      BlockedForGood(s, before);
      BlockedStep(Run(s, before), op);
      BlockedMoves(Run(s, before), op);
    }
  }

  // ----- a message that never leaves -----

  lemma {:induction false} FirstMessage(settings: AssocTxSettings, data: Bytes)
    requires settings.outStreams > 0 && |data| <= settings.outBufferLimit
    ensures var s := NewTx(settings, 0);
      var t := TrySend(s, data, 0, 0, false, false).0;
      && |t.outQueue| == 1 && t.outQueue[0].buf == data && t.pmtu == 1200 && t.inFlight == 0
      && t.peerWindow == settings.peerArwnd && t.window == s.window
  {}

  lemma {:induction false} FirstPieceLeaves(s: TxState, now: nat)
    requires s.outQueue != [] && Rest(s) == 2374 && s.pmtu == 1200 && s.inFlight == 0 && s.peerWindow >= 2368
    requires s.window.phase.SlowStart? && s.window.cwnd >= 1184
    ensures var (t, first) := PollData(s, 1200, 0, now);
      && first.Polled? && |first.value.buf| == 1184 && t.outQueue != [] && Rest(t) == 1190
      && PollData(t, 1200, 0, now) == (t, Nothing)
  {
    var t := PollData(s, 1200, 0, now).0;
    assert t.outQueue[0] == Remainder(s.outQueue[0], 1184) && t.pmtu == 1200;
  }

  /** A message of 2374 bytes on a fresh path: its first poll sends 1184 bytes, the second one sends nothing and changes
      nothing. */
  lemma {:induction false} MessageGetsStuck(settings: AssocTxSettings, data: Bytes, now: nat)
    requires |data| == 2374 && settings.outStreams > 0 && 2374 <= settings.outBufferLimit && 2368 <= settings.peerArwnd
    ensures var s := TrySend(NewTx(settings, 0), data, 0, 0, false, false).0;
      var (t, first) := PollData(s, 1200, 0, now);
      && first.Polled? && |first.value.buf| == 1184 && t.outQueue != [] && Rest(t) == 1190
      && PollData(t, 1200, 0, now) == (t, Nothing)
  {
    FirstMessage(settings, data);
    FirstPieceLeaves(TrySend(NewTx(settings, 0), data, 0, 0, false, false).0, now);
  }

  /** And no run with full fragments ever sends the rest of it, or anything behind it. */
  lemma {:induction false} MessageNeverLeaves(settings: AssocTxSettings, data: Bytes, ops: seq<TxOp>)
    requires |data| == 2374 && settings.outStreams > 0 && 2374 <= settings.outBufferLimit
    requires FullFragments(TrySend(NewTx(settings, 0), data, 0, 0, false, false).0, ops)
    ensures LeftCompletely(TrySend(NewTx(settings, 0), data, 0, 0, false, false).0, ops) == 0
  {
    var s := TrySend(NewTx(settings, 0), data, 0, 0, false, false).0;
    FirstMessage(settings, data);
    assert !Sendable(2374, 1184);
    MessageLeavesExactly(s, ops, 2374);
  }
}
