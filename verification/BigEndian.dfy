/** Network byte order. */
module BigEndian {
  import opened Basics

  function Pow256(k: nat): nat { if k == 0 then 1 else 256 * Pow256(k - 1) }

  /** The `k` low-order bytes of `v`, most significant first. */
  function Put(v: nat, k: nat): (s: Bytes)
    ensures |s| == k
  {
    if k == 0 then [] else Put(v / 256, k - 1) + [v % 256]
  }

  /** The number that a byte string denotes. */
  function Get(s: Bytes): nat {
    if s == [] then 0 else 256 * Get(s[..|s| - 1]) + s[|s| - 1]
  }

  lemma {:induction false} GetBound(s: Bytes)
    ensures Get(s) < Pow256(|s|)
  {
    if s == [] {
    } else {
      GetBound(s[..|s| - 1]);
    }
  }

  lemma {:induction false} GetPut(v: nat, k: nat)
    requires v < Pow256(k)
    ensures Get(Put(v, k)) == v
  {
    if k == 0 {
    } else {
      GetPut(v / 256, k - 1);
      assert Put(v, k)[..k - 1] == Put(v / 256, k - 1);
    }
  }

  lemma {:induction false} Powers()
    ensures Pow256(1) == 256 && Pow256(2) == TWO16 && Pow256(4) == TWO32 && Pow256(8) == TWO64
    ensures Pow256(16) == 0x1_0000_0000_0000_0000_0000_0000_0000_0000
  {}

  // ----- reading a number off the front of a byte string -----

  function Read16(d: Bytes): u16
    requires 2 <= |d|
  {
    GetBound(d[..2]); Powers(); Get(d[..2])
  }

  function Read32(d: Bytes): u32
    requires 4 <= |d|
  {
    GetBound(d[..4]); Powers(); Get(d[..4])
  }

  function Read64(d: Bytes): u64
    requires 8 <= |d|
  {
    GetBound(d[..8]); Powers(); Get(d[..8])
  }

  function Read128(d: Bytes): u128
    requires 16 <= |d|
  {
    GetBound(d[..16]); Powers(); Get(d[..16])
  }

  lemma {:induction false} ReadPut(v: nat, k: nat, rest: Bytes)
    requires v < Pow256(k)
    ensures Get((Put(v, k) + rest)[..k]) == v && (Put(v, k) + rest)[k..] == rest
  {
    GetPut(v, k);
    assert (Put(v, k) + rest)[..k] == Put(v, k);
  }

  lemma {:induction false} ReadPut16(v: u16, rest: Bytes)
    ensures Read16(Put(v, 2) + rest) == v && (Put(v, 2) + rest)[2..] == rest
  {
    Powers();
    ReadPut(v, 2, rest);
  }

  lemma {:induction false} ReadPut32(v: u32, rest: Bytes)
    ensures Read32(Put(v, 4) + rest) == v && (Put(v, 4) + rest)[4..] == rest
  {
    Powers();
    ReadPut(v, 4, rest);
  }

  lemma {:induction false} ReadPut64(v: u64, rest: Bytes)
    ensures Read64(Put(v, 8) + rest) == v && (Put(v, 8) + rest)[8..] == rest
  {
    Powers();
    ReadPut(v, 8, rest);
  }

  lemma {:induction false} ReadPut128(v: u128, rest: Bytes)
    ensures Read128(Put(v, 16) + rest) == v && (Put(v, 16) + rest)[16..] == rest
  {
    Powers();
    ReadPut(v, 16, rest);
  }

  // ----- several numbers in a row -----

  function Sum(widths: seq<nat>): nat { if widths == [] then 0 else widths[0] + Sum(widths[1..]) }

  function PutNumbers(vs: seq<nat>, widths: seq<nat>): Bytes
    requires |vs| == |widths|
  {
    if vs == [] then [] else Put(vs[0], widths[0]) + PutNumbers(vs[1..], widths[1..])
  }

  predicate Fit(vs: seq<nat>, widths: seq<nat>) {
    |vs| == |widths| && forall i :: 0 <= i < |vs| ==> vs[i] < Pow256(widths[i])
  }

  /** The numbers of the given widths, read one after the other, and what follows them; `None` if the bytes run out. */
  function TakeNumbers(d: Bytes, widths: seq<nat>): (r: Option<(seq<nat>, Bytes)>)
    ensures r.Some? ==> Fit(r.value.0, widths)
  {
    if widths == [] then Some(([], d))
    else if |d| < widths[0] then None
    else
      GetBound(d[..widths[0]]);
      match TakeNumbers(d[widths[0]..], widths[1..])
      case None => None
      case Some((vs, rest)) => Some(([Get(d[..widths[0]])] + vs, rest))
  }

  /** The bytes run out exactly if there are fewer than the widths add up to. */
  lemma {:induction false} TakesExactly(d: Bytes, widths: seq<nat>)
    ensures TakeNumbers(d, widths).Some? <==> Sum(widths) <= |d|
    ensures TakeNumbers(d, widths).Some? ==> TakeNumbers(d, widths).value.1 == d[Sum(widths)..]
  {
    if widths == [] {
    } else if |d| >= widths[0] {
      TakesExactly(d[widths[0]..], widths[1..]);
    }
  }

  lemma {:induction false} TakePut(vs: seq<nat>, widths: seq<nat>, rest: Bytes)
    requires Fit(vs, widths)
    ensures |PutNumbers(vs, widths)| == Sum(widths)
    ensures TakeNumbers(PutNumbers(vs, widths) + rest, widths) == Some((vs, rest))
  {
    if vs == [] {
      AppendNothing(rest);
    } else {
      var tail := PutNumbers(vs[1..], widths[1..]);
      TakePut(vs[1..], widths[1..], rest);
      Reassociate(Put(vs[0], widths[0]), tail, rest);
      ReadPut(vs[0], widths[0], tail + rest);
      assert vs == [vs[0]] + vs[1..];
    }
  }
}
