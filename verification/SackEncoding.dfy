/** Gap blocks are an exact run-length encoding of the reorder buffer, as long as 16 bits suffice. */
module SackEncoding {
  import opened Basics
  import opened SerialNumber
  import opened Chunks
  import opened RxModel

  /** The entries lie ahead of the counter, in the order of their distance from it. */
  ghost predicate SortedFrom(counter: u32, reorder: seq<DataChunk>) {
    && (forall k :: 0 <= k < |reorder| ==> 1 <= Offset(counter, reorder[k].tsn))
    && (forall j, k :: 0 <= j < k < |reorder| ==> Offset(counter, reorder[j].tsn) < Offset(counter, reorder[k].tsn))
  }

  /** Some buffered chunk lies at this distance from the counter. */
  ghost predicate Holds(counter: u32, reorder: seq<DataChunk>, o: int) {
    exists k :: 0 <= k < |reorder| && Offset(counter, reorder[k].tsn) == o
  }

  /** The inclusive meaning of section 3.3.4 of RFC 9260. */
  ghost predicate Covers(blocks: seq<(u16, u16)>, o: int) {
    exists k :: 0 <= k < |blocks| && blocks[k].0 <= o <= blocks[k].1
  }

  /** The half-open meaning that the sender gives to the same blocks. */
  ghost predicate CoversHalfOpen(blocks: seq<(u16, u16)>, o: int) {
    exists k :: 0 <= k < |blocks| && blocks[k].0 <= o < blocks[k].1
  }

  /** Blocks are sorted and disjoint, and no two of them could be joined. */
  ghost predicate Separated(blocks: seq<(u16, u16)>) {
    && (forall k :: 0 <= k < |blocks| ==> blocks[k].0 <= blocks[k].1)
    && (forall j, k :: 0 <= j < k < |blocks| ==> blocks[j].1 as int + 1 < blocks[k].0)
  }

  ghost predicate Short(counter: u32, reorder: seq<DataChunk>) {
    forall k :: 0 <= k < |reorder| ==> Offset(counter, reorder[k].tsn) < TWO16
  }

  lemma {:induction false} HoldsCons(counter: u32, cs: seq<DataChunk>, o: int)
    requires cs != []
    ensures Holds(counter, cs, o) <==> o == Offset(counter, cs[0].tsn) || Holds(counter, cs[1..], o)
  {}

  lemma {:induction false} CoversCons(block: (u16, u16), blocks: seq<(u16, u16)>, o: int)
    ensures Covers([block] + blocks, o) <==> block.0 <= o <= block.1 || Covers(blocks, o)
  {
    var all := [block] + blocks;
    if block.0 <= o <= block.1 {
      assert all[0] == block;
    }
    if k :| 0 <= k < |blocks| && blocks[k].0 <= o <= blocks[k].1 {
      assert all[k + 1] == blocks[k];
    }
  }

  lemma {:induction false} SeparatedCons(block: (u16, u16), blocks: seq<(u16, u16)>)
    requires block.0 <= block.1 && Separated(blocks) && blocks != [] && block.1 as int + 1 < blocks[0].0
    ensures Separated([block] + blocks)
  {}

  /** What the blocks of the open run `first..last` and the chunks `rest` say about one distance. */
  lemma {:induction false} RunsAreExact(counter: u32, first: u32, last: u32, rest: seq<DataChunk>, o: int)
    requires SortedFrom(counter, rest) && Short(counter, rest)
    requires 1 <= Offset(counter, first) <= Offset(counter, last) < TWO16
    requires rest != [] ==> Offset(counter, last) < Offset(counter, rest[0].tsn)
    ensures var bs := Runs(counter, first, last, rest);
      && bs != [] && bs[0].0 == Offset(counter, first)
      && Separated(bs)
      && (Covers(bs, o) <==> Offset(counter, first) <= o <= Offset(counter, last) || Holds(counter, rest, o))
    decreases |rest|
  {
    var block := (Offset(counter, first), Offset(counter, last));
    assert Block(counter, first, last) == block;
    if rest == [] {
      CoversCons(block, [], o);
      assert [block] + [] == [block];
    } else {
      HoldsCons(counter, rest, o);
      if rest[0].tsn == Increase(last) {
        RunsAreExact(counter, first, rest[0].tsn, rest[1..], o);
      } else {
        RunsAreExact(counter, rest[0].tsn, rest[0].tsn, rest[1..], o);
        var tail := Runs(counter, rest[0].tsn, rest[0].tsn, rest[1..]);
        CoversCons(block, tail, o);
        SeparatedCons(block, tail);
      }
    }
  }

  /** Read inclusively, the blocks of a SACK are exactly the distances of the buffered TSNs; they are
      sorted, disjoint and maximal. */
  lemma {:induction false} BlocksAreExact(counter: u32, reorder: seq<DataChunk>)
    requires SortedFrom(counter, reorder) && Short(counter, reorder)
    ensures var bs := GapBlocks(counter, reorder);
      && Separated(bs)
      && forall o :: Covers(bs, o) <==> Holds(counter, reorder, o)
  {
    forall o ensures Covers(GapBlocks(counter, reorder), o) <==> Holds(counter, reorder, o) {
      if reorder != [] {
        RunsAreExact(counter, reorder[0].tsn, reorder[0].tsn, reorder[1..], o);
        HoldsCons(counter, reorder, o);
      }
    }
    if reorder != [] {
      RunsAreExact(counter, reorder[0].tsn, reorder[0].tsn, reorder[1..], 0);
    }
  }

  /** Sixteen bits are also necessary: a buffered TSN further away than that is never reported. */
  lemma {:induction false} ExactOnlyWithin16Bits(counter: u32, reorder: seq<DataChunk>)
    requires SortedFrom(counter, reorder)
    ensures Short(counter, reorder)
      <==> forall o :: Covers(GapBlocks(counter, reorder), o) <==> Holds(counter, reorder, o)
  {
    if Short(counter, reorder) {
      BlocksAreExact(counter, reorder);
    } else {
      var k :| 0 <= k < |reorder| && Offset(counter, reorder[k].tsn) >= TWO16;
      assert Holds(counter, reorder, Offset(counter, reorder[k].tsn));
      assert !Covers(GapBlocks(counter, reorder), Offset(counter, reorder[k].tsn));
    }
  }

  /** The sender's half-open reading loses the last chunk of every run and nothing else: it takes a chunk
      for received exactly if that chunk and its successor both are in the reorder buffer. */
  lemma {:induction false} HalfOpenReading(counter: u32, reorder: seq<DataChunk>, o: int)
    requires SortedFrom(counter, reorder) && Short(counter, reorder)
    ensures CoversHalfOpen(GapBlocks(counter, reorder), o)
      <==> Holds(counter, reorder, o) && Holds(counter, reorder, o + 1)
  {
    BlocksAreExact(counter, reorder);
    var bs := GapBlocks(counter, reorder);
    if CoversHalfOpen(bs, o) {
      assert Covers(bs, o) && Covers(bs, o + 1);
    }
    if Covers(bs, o) && Covers(bs, o + 1) {
      var j :| 0 <= j < |bs| && bs[j].0 <= o <= bs[j].1;
      var k :| 0 <= k < |bs| && bs[k].0 <= o + 1 <= bs[k].1;
      assert j == k;
    }
  }
}
