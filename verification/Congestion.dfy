/** Congestion control towards one destination: slow start, congestion avoidance, fast and loss recovery. */
module Congestion {
  import opened Basics

  datatype Phase = SlowStart | FastRecovery | CongestionAvoidance | LossRecovery

  datatype Window = Window(phase: Phase, pmcds: nat, cwnd: nat, ssthresh: nat, partialBytesAcked: nat)

  function StartWindow(pmcds: nat): nat { Min(4 * pmcds, Max(2 * pmcds, 4404)) }

  function NewWindow(pmtu: nat): Window
    requires pmtu >= 12
  {
    Window(SlowStart, pmtu - 12, StartWindow(pmtu - 12), TWO64 - 1, 0)
  }

  function UpdatePmtu(w: Window, pmtu: nat): Window
    requires pmtu >= 12
  {
    w.(pmcds := pmtu - 12)
  }

  predicate InRecovery(w: Window) { w.phase.FastRecovery? || w.phase.LossRecovery? }

  /** Progress of `acked` bytes at the front of the queue and `partial` bytes behind a gap. */
  function BytesAcked(w: Window, partial: nat, acked: nat, inFlightBefore: int): Window {
    match w.phase
    case FastRecovery => if acked > 0 then w.(phase := SlowStart) else w
    case LossRecovery => if acked > 0 then w.(phase := SlowStart) else w
    case CongestionAvoidance =>
      var total := w.partialBytesAcked + acked + partial;
      if total < w.cwnd then w.(partialBytesAcked := total)
      else if inFlightBefore < w.cwnd then w.(partialBytesAcked := w.cwnd)
      else w.(partialBytesAcked := total - w.cwnd, cwnd := w.cwnd + Min(w.pmcds, 1000))
    case SlowStart =>
      var cwnd := if inFlightBefore >= w.cwnd then w.cwnd + Max(2 * w.pmcds, acked) else w.cwnd;
      if cwnd >= w.ssthresh then w.(cwnd := w.ssthresh, phase := CongestionAvoidance) else w.(cwnd := cwnd)
  }

  function EnterFastRecovery(w: Window): Window {
    if w.phase.CongestionAvoidance?
    then w.(ssthresh := w.cwnd / 2, cwnd := Max(w.cwnd / 2, StartWindow(w.pmcds)), phase := FastRecovery)
    else w
  }

  function RtoExpired(w: Window): Window {
    w.(ssthresh := w.cwnd / 2, cwnd := StartWindow(w.pmcds), phase := LossRecovery)
  }

  // ----- the bound -----

  /** The largest window that a path with chunks of at most `p` bytes and a send buffer of `limit` bytes can reach. */
  function LargestWindow(p: nat, limit: nat): nat {
    Max(Max(4404, 2 * p), limit + Max(2 * p, limit))
  }

  predicate Bounded(w: Window, p: nat, limit: nat) {
    w.pmcds <= p && w.cwnd <= LargestWindow(p, limit)
  }

  /** The window only grows while the bytes in flight fill it, so the send buffer bounds it. */
  lemma {:induction false} BytesAckedBounded(w: Window, partial: nat, acked: nat, inFlightBefore: nat, p: nat,
                                             limit: nat)
    requires Bounded(w, p, limit) && acked <= inFlightBefore <= limit
    ensures Bounded(BytesAcked(w, partial, acked, inFlightBefore), p, limit)
  {}

  lemma {:induction false} RecoveryBounded(w: Window, p: nat, limit: nat)
    requires Bounded(w, p, limit)
    ensures Bounded(EnterFastRecovery(w), p, limit) && Bounded(RtoExpired(w), p, limit)
  {}

  class PerDestinationInfo {
    var phase: Phase
    var pmcds: nat
    var cwnd: nat
    var ssthresh: nat
    var partialBytesAcked: nat

    ghost function Value(): Window
      reads this
    {
      Window(phase, pmcds, cwnd, ssthresh, partialBytesAcked)
    }

    constructor (pmtu: nat)
      requires pmtu >= 12
      ensures Value() == NewWindow(pmtu)
    {
      phase := SlowStart;
      pmcds := pmtu - 12;
      cwnd := Min(4 * (pmtu - 12), Max(2 * (pmtu - 12), 4404));
      ssthresh := TWO64 - 1;
      partialBytesAcked := 0;
    }

    method SetPmtu(pmtu: nat)
      requires pmtu >= 12
      modifies this
      ensures Value() == UpdatePmtu(old(Value()), pmtu)
    {
      pmcds := pmtu - 12;
    }

    /** The window grows exactly while the bytes in flight fill it: in slow start with every acknowledgement, up to the
        threshold, in congestion avoidance with every full window of acknowledged bytes. So it stays bounded by the
        send buffer. A recovery phase ends exactly with the first acknowledged byte. */
    method RecordAcked(partial: nat, acked: nat, inFlightBefore: nat)
      modifies this
      ensures Value() == BytesAcked(old(Value()), partial, acked, inFlightBefore)
      ensures cwnd > old(cwnd) ==> inFlightBefore >= old(cwnd)
      ensures old(phase).SlowStart? ==>
        var full := inFlightBefore >= old(cwnd);
        var reached := old(cwnd) + if full then Max(2 * pmcds, acked) else 0;
        cwnd == Min(reached, ssthresh) && (phase.CongestionAvoidance? <==> reached >= ssthresh)
      ensures old(phase).CongestionAvoidance? ==>
        && phase.CongestionAvoidance?
        && cwnd - old(cwnd) == (if inFlightBefore >= old(cwnd) && old(partialBytesAcked) + acked + partial >= old(cwnd)
                                then Min(pmcds, 1000) else 0)
      ensures InRecovery(old(Value())) ==> cwnd == old(cwnd) && (InRecovery(Value()) <==> acked == 0)
      ensures !InRecovery(old(Value())) ==> !InRecovery(Value())
      ensures forall p: nat, limit: nat ::
        Bounded(old(Value()), p, limit) && acked <= inFlightBefore <= limit ==> Bounded(Value(), p, limit)
    {
      match phase
      case FastRecovery | LossRecovery =>
        if acked > 0 {
          phase := SlowStart;
        }
      case CongestionAvoidance =>
        partialBytesAcked := partialBytesAcked + acked + partial;
        if partialBytesAcked >= cwnd {
          if inFlightBefore < cwnd {
            partialBytesAcked := cwnd;
          } else {
            partialBytesAcked := partialBytesAcked - cwnd;
            cwnd := cwnd + Min(pmcds, 1000);
          }
        }
      case SlowStart =>
        if inFlightBefore >= cwnd {
          cwnd := cwnd + Max(2 * pmcds, acked);
        }
        if cwnd >= ssthresh {
          cwnd := ssthresh;
          phase := CongestionAvoidance;
        }
    }

    /** Fast recovery is entered exactly from congestion avoidance, and keeps the bound of the window. */
    method StartFastRecovery()
      modifies this
      ensures Value() == EnterFastRecovery(old(Value()))
      ensures phase.FastRecovery? <==> old(phase).FastRecovery? || old(phase).CongestionAvoidance?
      ensures old(phase).CongestionAvoidance? ==>
        ssthresh == old(cwnd) / 2 && cwnd == Max(ssthresh, StartWindow(pmcds))
      ensures forall p: nat, limit: nat :: Bounded(old(Value()), p, limit) ==> Bounded(Value(), p, limit)
    {
      if phase.CongestionAvoidance? {
        ssthresh := cwnd / 2;
        cwnd := Max(ssthresh, Min(4 * pmcds, Max(2 * pmcds, 4404)));
        phase := FastRecovery;
      }
    }

    /** Loss recovery is entered from everywhere, with the window of a new path, and keeps the bound of the window. */
    method StartLossRecovery()
      modifies this
      ensures Value() == RtoExpired(old(Value()))
      ensures phase.LossRecovery? && cwnd == StartWindow(pmcds) && pmcds == old(pmcds) && ssthresh == old(cwnd) / 2
      ensures forall p: nat, limit: nat :: Bounded(old(Value()), p, limit) ==> Bounded(Value(), p, limit)
    {
      ssthresh := cwnd / 2;
      cwnd := Min(4 * pmcds, Max(2 * pmcds, 4404));
      phase := LossRecovery;
    }
  }
}
