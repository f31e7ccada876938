/** Wrapping serial numbers: `Tsn` (32 bit) and `Sequence` (16 bit) and their comparison. */
module SerialNumber {
  import opened Basics

  datatype Ordering = Less | Equal | Greater

  /** Plain comparison of unbounded numbers. */
  function Compare(a: int, b: int): Ordering {
    if a < b then Less else if a == b then Equal else Greater
  }

  /** The `Ord` instance shared by `Tsn` and `Sequence`: `max` is the largest machine value. */
  function SerialCompare(max: nat, a: nat, b: nat): Ordering {
    var radius := max / 128;
    var hi := max - radius;
    var lo := radius;
    if a < lo && b > hi then Greater
    else if b < lo && a > hi then Less
    else Compare(a, b)
  }

  const TSN_RADIUS: int := 33554431      // u32::MAX / 128, that is 2^25 - 1
  const SEQUENCE_RADIUS: int := 511      // u16::MAX / 128

  function TsnCompare(a: u32, b: u32): Ordering { SerialCompare(TWO32 - 1, a, b) }

  function Increase(t: u32): u32 { if t == TWO32 - 1 then 0 else t + 1 }

  function Decrease(t: u32): u32 { if t == 0 then TWO32 - 1 else t - 1 }

  function IncreaseSequence(s: u16): u16 { if s == TWO16 - 1 then 0 else s + 1 }

  /** A step of `d` forward from `a` is seen as "Less", and the step back as "Greater". */
  predicate OrdersStep(max: nat, a: nat, d: nat) {
    var b := (a + d) % (max + 1);
    SerialCompare(max, a, b) == Less && SerialCompare(max, b, a) == Greater
  }

  /** Steps of `d` are ordered from everywhere on the circle. */
  ghost predicate OrdersEveryStep(max: nat, d: nat) {
    forall a: nat :: a <= max ==> OrdersStep(max, a, d)
  }

  lemma {:induction false} WrapOnce(max: nat, x: nat)
    requires x < 2 * (max + 1)
    ensures x % (max + 1) == if x <= max then x else x - (max + 1)
  {}

  lemma {:induction false} StepOrder(max: nat, a: nat, d: nat)
    requires max >= 128 && a <= max && 1 <= d <= max / 128
    ensures OrdersStep(max, a, d)
  {
    WrapOnce(max, a + d);
  }

  /** The comparison is right for steps up to `max / 128`, and for no longer step. */
  lemma {:induction false} WindowIsExact(max: nat, d: nat)
    requires max >= 128 && 1 <= d <= max
    ensures OrdersEveryStep(max, d) <==> d <= max / 128
  {
    if d <= max / 128 {
      forall a: nat | a <= max
        ensures OrdersStep(max, a, d)
      {
        StepOrder(max, a, d);
      }
    } else {
      var a := max + 1 - d;
      assert (a + d) % (max + 1) == 0 by { WrapOnce(max, a + d); }
      assert !OrdersStep(max, a, d);
    }
  }

  lemma {:induction false} TsnWindow(d: nat)
    requires 1 <= d < TWO32
    ensures OrdersEveryStep(TWO32 - 1, d) <==> d <= TSN_RADIUS
  {
    WindowIsExact(TWO32 - 1, d);
  }

  lemma {:induction false} SequenceWindow(d: nat)
    requires 1 <= d < TWO16
    ensures OrdersEveryStep(TWO16 - 1, d) <==> d <= SEQUENCE_RADIUS
  {
    WindowIsExact(TWO16 - 1, d);
  }

  // ----- unbounded TSNs -----

  /** The 32-bit TSN of the `i`-th chunk of an association whose first TSN is `init`. */
  function At(init: u32, i: int): u32 { (init + i) % TWO32 }

  /** How far `t` lies ahead of `base` on the circle. */
  function Offset(base: u32, t: u32): u32 {
    if base <= t then t - base else t - base + TWO32
  }

  lemma {:induction false} AtStep(init: u32, i: int)
    ensures At(init, i + 1) == Increase(At(init, i))
    ensures At(init, i) == Decrease(At(init, i + 1))
  {}

  lemma {:induction false} OffsetAt(init: u32, i: int, j: int)
    requires 0 <= j - i < TWO32
    ensures Offset(At(init, i), At(init, j)) == j - i
  {}

  /** Inside a window the 32-bit comparison is the comparison of the unbounded TSNs. */
  lemma {:induction false} CompareAt(init: u32, i: int, j: int)
    requires -TSN_RADIUS <= i - j <= TSN_RADIUS
    ensures TsnCompare(At(init, i), At(init, j)) == Compare(i, j)
  {}

  /** The same statement without a start: what the order of two TSNs is, seen from `base`. */
  lemma {:induction false} CompareOffsets(base: u32, a: u32, b: u32)
    requires -TSN_RADIUS <= Offset(base, a) - Offset(base, b) <= TSN_RADIUS
    ensures TsnCompare(a, b) == Compare(Offset(base, a), Offset(base, b))
  {}
}
