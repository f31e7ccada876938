/** Smoothed round-trip time and the retransmission timeout; all times are in nanoseconds. */
module RoundTrip {
  import opened Basics
  import opened SerialNumber

  const MILLISECOND: nat := 1_000_000
  const MIN_RTO: nat := 1_000_000
  const MAX_RTO: nat := 200_000_000
  const UNMEASURED_RTO: nat := 3_000_000_000

  datatype Estimate = Estimate(
    uninited: bool,
    measureFor: Option<(u32, nat)>,
    srtt: nat,
    rttvar: int,
    rto: nat)

  const NEW: Estimate := Estimate(true, None, 0, 0, 0)

  /** Division of signed machine integers, which rounds towards zero. */
  function Quotient(a: int, b: nat): int
    requires b > 0
  {
    if a >= 0 then a / b else -((-a) / b)
  }

  /** `as u64` */
  function Unsigned(v: int): int { if v < 0 then v + TWO64 else v }

  function Sent(e: Estimate, tsn: u32, now: nat): Estimate {
    if e.measureFor.None? then e.(measureFor := Some((tsn, now))) else e
  }

  function Clamp(t: int): int { Min(Max(t, MIN_RTO), MAX_RTO) }

  function Measured(e: Estimate, m: nat): Estimate {
    var rttvar := if e.uninited then m / 2 else Quotient(e.rttvar * 3, 4) + Quotient(e.srtt - m, 4);
    var srtt := if e.uninited then m else e.srtt * 7 / 8 + m / 8;
    Estimate(false, e.measureFor, srtt, rttvar, Clamp(Unsigned(srtt + rttvar * 4)))
  }

  function Acked(e: Estimate, tsn: u32, now: nat): Estimate {
    if e.measureFor.Some? && TsnCompare(e.measureFor.value.0, tsn) != Greater
    then Measured(e.(measureFor := None), SaturatingSub(now, e.measureFor.value.1))
    else e
  }

  function Duration(e: Estimate): nat { if e.uninited then UNMEASURED_RTO else e.rto }

  function Expired(e: Estimate): Estimate { e.(rto := Min(2 * e.rto, MAX_RTO)) }

  /** Once a round trip was measured the timeout stays between 1 and 200 milliseconds. */
  predicate InRange(e: Estimate) {
    if e.uninited then e.rto == 0 else MIN_RTO <= e.rto <= MAX_RTO
  }

  lemma {:induction false} TimeoutStaysInRange(e: Estimate, tsn: u32, now: nat)
    requires InRange(e)
    ensures InRange(Sent(e, tsn, now)) && InRange(Acked(e, tsn, now)) && InRange(Expired(e))
    ensures InRange(NEW)
  {}

  // ----- the average -----

  lemma {:induction false} QuotientIsNear(a: int, b: nat)
    requires b > 0
    ensures a - b * Quotient(a, b) < b && b * Quotient(a, b) - a < b
  {}

  /** Up to rounding, a measurement moves the average by an eighth of its distance, and the variance by a quarter. */
  lemma {:induction false} MeasurementWeighs(e: Estimate, m: nat)
    requires !e.uninited
    ensures var f := Measured(e, m);
      && 7 * e.srtt + m - 14 <= 8 * f.srtt <= 7 * e.srtt + m
      && -6 <= 4 * f.rttvar - (3 * e.rttvar + e.srtt - m) <= 6
      && f.rto == Clamp(Unsigned(f.srtt + 4 * f.rttvar)) && f.measureFor == e.measureFor && !f.uninited
  {
    QuotientIsNear(e.rttvar * 3, 4);
    QuotientIsNear(e.srtt - m, 4);
  }

  function AllMeasured(e: Estimate, ms: seq<nat>): Estimate {
    if ms == [] then e else Measured(AllMeasured(e, ms[..|ms| - 1]), ms[|ms| - 1])
  }

  /** However many round trips are measured, the average lies between the shortest and the longest of them, up to what
      rounding takes away. */
  lemma {:induction false} AverageStaysBetween(ms: seq<nat>, lo: nat, hi: nat)
    requires ms != [] && forall i :: 0 <= i < |ms| ==> lo <= ms[i] <= hi
    ensures lo - 14 <= AllMeasured(NEW, ms).srtt <= hi && !AllMeasured(NEW, ms).uninited
  {
    var before := ms[..|ms| - 1];
    if before == [] {
    } else {
      AverageStaysBetween(before, lo, hi);
      MeasurementWeighs(AllMeasured(NEW, before), ms[|ms| - 1]);
    }
  }

  /** The variance that RFC 2988 asks for, with the absolute distance. */
  function StandardVariance(e: Estimate, m: nat): int {
    Quotient(e.rttvar * 3, 4) + (if e.srtt >= m then e.srtt - m else m - e.srtt) / 4
  }

  /** The distance is taken with its sign, so the variance is the standard one exactly if the round trip was not longer
      than the average, up to rounding; a longer one makes the timeout shorter than it should be. */
  lemma {:induction false} VarianceIsStandardExactly(e: Estimate, m: nat)
    requires !e.uninited
    ensures Measured(e, m).rttvar == StandardVariance(e, m) <==> m < e.srtt + 4
    ensures Measured(e, m).rttvar <= StandardVariance(e, m)
  {}

  class Srtt {
    var uninited: bool
    var measureForTsn: Option<(u32, nat)>
    var srtt: nat
    var rttvar: int
    var rto: nat

    ghost function Value(): Estimate
      reads this
    {
      Estimate(uninited, measureForTsn, srtt, rttvar, rto)
    }

    /** Once a round trip was measured the timeout stays between 1 and 200 milliseconds. */
    ghost predicate Valid()
      reads this
    {
      InRange(Value())
    }

    constructor ()
      ensures Valid() && Value() == NEW
    {
      uninited := true;
      measureForTsn := None;
      srtt := 0;
      rttvar := 0;
      rto := 0;
    }

    /** At most one measurement runs at a time; the timeout is not touched. */
    method TsnSent(tsn: u32, now: nat)
      requires Valid()
      modifies this
      ensures Valid() && Value() == Sent(old(Value()), tsn, now)
      ensures measureForTsn.Some? && RtoDuration() == old(RtoDuration())
    {
      if measureForTsn.None? {
        measureForTsn := Some((tsn, now));
      }
    }

    /** A measurement ends exactly with the acknowledgement of its TSN; afterwards the timeout is in range. */
    method TsnAcked(tsn: u32, now: nat)
      requires Valid()
      modifies this
      ensures Valid() && Value() == Acked(old(Value()), tsn, now)
      ensures measureForTsn.Some?
        <==> old(measureForTsn).Some? && TsnCompare(old(measureForTsn).value.0, tsn) == Greater
      ensures old(measureForTsn).Some? && measureForTsn.None? ==> MIN_RTO <= RtoDuration() <= MAX_RTO
    {
      if measureForTsn.None? {
        return;
      }
      var (measureFor, start) := measureForTsn.value;
      if TsnCompare(measureFor, tsn) != Greater {
        measureForTsn := None;
        RecordMeasured(SaturatingSub(now, start));
      }
    }

    /** Whatever is measured, the timeout is in range afterwards. */
    method RecordMeasured(measurement: nat)
      modifies this
      ensures Valid() && Value() == Measured(old(Value()), measurement)
      ensures MIN_RTO <= RtoDuration() <= MAX_RTO
    {
      if uninited {
        uninited := false;
        srtt := measurement;
        rttvar := measurement / 2;
      } else {
        rttvar := Quotient(rttvar * 3, 4) + Quotient(srtt - measurement, 4);
        srtt := srtt * 7 / 8 + measurement / 8;
      }
      rto := Min(Max(Unsigned(srtt + rttvar * 4), MIN_RTO), MAX_RTO);
    }

    function RtoDuration(): nat
      reads this
    {
      if uninited then UNMEASURED_RTO else rto
    }

    /** The timeout never gets shorter by running out, and never longer than the longest one. */
    method RtoExpired()
      requires Valid()
      modifies this
      ensures Valid() && Value() == Expired(old(Value()))
      ensures old(RtoDuration()) <= RtoDuration() <= UNMEASURED_RTO
      ensures !uninited ==> RtoDuration() == MAX_RTO || RtoDuration() == 2 * old(RtoDuration())
    {
      rto := Min(2 * rto, MAX_RTO);
    }
  }
}
