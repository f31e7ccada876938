/** The state cookie on its way: INIT ACK, COOKIE ECHO, and back to the endpoint that made it. */
module CookiePath {
  import opened Basics
  import opened Chunks
  import opened BigEndian
  import opened Wire
  import opened WireRoundTrip

  function WithoutFakes(aliases: seq<TransportAddress>): seq<TransportAddress> {
    if aliases == [] then []
    else (if aliases[0].Fake? then [] else [aliases[0]]) + WithoutFakes(aliases[1..])
  }

  lemma {:induction false} WithoutFakesIsSame(aliases: seq<TransportAddress>)
    ensures |WithoutFakes(aliases)| <= |aliases|
    ensures WithoutFakes(aliases) == aliases <==> NoFakes(aliases)
  {
    if aliases == [] {
    } else {
      WithoutFakesIsSame(aliases[1..]);
      assert aliases == [aliases[0]] + aliases[1..];
      if aliases[0].Fake? {
        assert |WithoutFakes(aliases)| < |aliases|;
      } else {
        assert WithoutFakes(aliases)[1..] == WithoutFakes(aliases[1..]);
        assert NoFakes(aliases[1..]) ==> NoFakes(aliases) by {
          assert forall i :: 0 < i < |aliases| ==> aliases[i] == aliases[1..][i - 1];
        }
      }
    }
  }

  /** The first byte is the tag; the number behind it reads back. */
  lemma {:induction false} TaggedNumber(tag: byte, number: Bytes, rest: Bytes)
    ensures var d := [tag] + number + rest;
      |d| == 1 + |number| + |rest| && d[0] == tag && d[1..] == number + rest && d[1 + |number|..] == rest
  {}

  lemma {:induction false} AddressRoundTrip(a: TransportAddress, rest: Bytes)
    ensures PutAddress(a) != [] && GetAddress(PutAddress(a) + rest) == Some((a, rest))
  {
    match a
    case Fake(v) =>
      ReadPut64(v, rest);
      TaggedNumber(0, Put(v, 8), rest);
    case IpV4(v) =>
      ReadPut32(v, rest);
      TaggedNumber(1, Put(v, 4), rest);
    case IpV6(v) =>
      ReadPut128(v, rest);
      TaggedNumber(2, Put(v, 16), rest);
  }

  lemma {:induction false} AliasRead(done: seq<TransportAddress>, a: TransportAddress, rest: Bytes)
    requires !a.Fake?
    ensures GetAliases(done, PutAddress(a) + rest) == GetAliases(done + [a], rest)
  {
    if a.IpV4? {
      ReadPut32(a.v4, rest);
      TaggedNumber(1, Put(a.v4, 4), rest);
    } else {
      ReadPut128(a.v6, rest);
      TaggedNumber(2, Put(a.v6, 16), rest);
    }
  }

  lemma {:induction false} AliasesRoundTrip(done: seq<TransportAddress>, aliases: seq<TransportAddress>)
    ensures |PutAliases(aliases)| == AliasesSize(aliases)
    ensures GetAliases(done, PutAliases(aliases)) == Some(done + WithoutFakes(aliases))
    decreases aliases
  {
    if aliases == [] {
      assert done + [] == done;
    } else if aliases[0].Fake? {
      AliasesRoundTrip(done, aliases[1..]);
      assert PutAliases(aliases) == PutAliases(aliases[1..]);
      assert WithoutFakes(aliases) == WithoutFakes(aliases[1..]);
    } else {
      AliasRead(done, aliases[0], PutAliases(aliases[1..]));
      AliasesRoundTrip(done + [aliases[0]], aliases[1..]);
      MoveOver(done, [aliases[0]] + WithoutFakes(aliases[1..]));
    }
  }

  lemma {:induction false} CookieWidths()
    ensures Sum(COOKIE_WIDTHS) == 36
  {
    assert COOKIE_WIDTHS[1..] == [2, 2, 4, 4, 4, 4, 2, 2, 4];
    assert Sum([2, 2, 4, 4, 4, 4, 2, 2, 4]) == 2 + Sum([2, 4, 4, 4, 4, 2, 2, 4]);
    assert Sum([2, 4, 4, 4, 4, 2, 2, 4]) == 2 + Sum([4, 4, 4, 4, 2, 2, 4]);
    assert Sum([4, 4, 4, 4, 2, 2, 4]) == 4 + Sum([4, 4, 4, 2, 2, 4]);
    assert Sum([4, 4, 4, 2, 2, 4]) == 4 + Sum([4, 4, 2, 2, 4]);
    assert Sum([4, 4, 2, 2, 4]) == 4 + Sum([4, 2, 2, 4]);
    assert Sum([4, 2, 2, 4]) == 4 + Sum([2, 2, 4]);
    assert Sum([2, 2, 4]) == 2 + Sum([2, 4]);
  }

  lemma {:induction false} ParsesFromParts(d: Bytes, numbers: seq<nat>, rest: Bytes, address: TransportAddress,
                                           more: Bytes, aliases: seq<TransportAddress>)
    requires |d| >= 33 && TakeNumbers(d, COOKIE_WIDTHS) == Some((numbers, rest)) && rest != []
    requires GetAddress(rest) == Some((address, more)) && GetAliases([], more) == Some(aliases)
    ensures ParseCookie(d) == Parsed(MakeCookie(numbers, address, aliases))
  {}

  lemma {:induction false} SameCookie(c: Cookie, aliases: seq<TransportAddress>)
    ensures MakeCookie(CookieNumbers(c), c.initAddress, aliases) == c.(aliases := aliases)
  {}

  /** A cookie parses back with all its fields; only fake aliases are lost, which are never written. */
  lemma {:induction false} CookieRoundTrip(c: Cookie)
    ensures |PutCookie(c)| == CookieSize(c)
    ensures ParseCookie(PutCookie(c)) == Parsed(c.(aliases := WithoutFakes(c.aliases)))
    ensures ParseCookie(PutCookie(c)) == Parsed(c) <==> NoFakes(c.aliases)
  {
    CookieWidths();
    TakePut(CookieNumbers(c), COOKIE_WIDTHS, PutAddress(c.initAddress) + PutAliases(c.aliases));
    AddressRoundTrip(c.initAddress, PutAliases(c.aliases));
    AliasesRoundTrip([], c.aliases);
    AppendNothing(WithoutFakes(c.aliases));
    ParsesFromParts(PutCookie(c), CookieNumbers(c), PutAddress(c.initAddress) + PutAliases(c.aliases),
                    c.initAddress, PutAliases(c.aliases), WithoutFakes(c.aliases));
    SameCookie(c, WithoutFakes(c.aliases));
    WithoutFakesIsSame(c.aliases);
  }

  /** Reading a cookie runs past its end for exactly these lengths: enough to pass the check, too few to be read. */
  lemma {:induction false} CookiePanicsExactly(d: Bytes)
    ensures ParseCookie(d) == ParsePanicked <==> 33 <= |d| < 37
  {
    CookieWidths();
    TakesExactly(d, COOKIE_WIDTHS);
  }

  lemma {:induction false} SameParam(c: Cookie)
    ensures StateCookieSize(Opaque(PutCookie(c))) == StateCookieSize(Ours(c))
    ensures SerializeParam(StateCookieP(Opaque(PutCookie(c)))) == SerializeParam(StateCookieP(Ours(c)))
  {
    CookieRoundTrip(c);
  }

  lemma {:induction false} SameParams(i: InitAck, j: InitAck)
    requires j == i.(cookie := j.cookie) && StateCookieSize(j.cookie) == StateCookieSize(i.cookie)
    requires SerializeParam(StateCookieP(j.cookie)) == SerializeParam(StateCookieP(i.cookie))
    ensures InitAckSize(j) == InitAckSize(i) && InitAckParams(j) == InitAckParams(i)
  {}

  lemma {:induction false} SameFrame(i: InitAck, j: InitAck)
    requires j == i.(cookie := j.cookie) && InitAckSize(j) == InitAckSize(i) && InitAckParams(j) == InitAckParams(i)
    ensures SerializeChunk(InitAckChunk(j)) == SerializeChunk(InitAckChunk(i))
  {}

  /** On the wire our own cookie is its bytes. */
  lemma {:induction false} SameBytes(i: InitAck)
    requires i.cookie.Ours?
    ensures var j := i.(cookie := Opaque(PutCookie(i.cookie.cookie)));
      && SerializedSize(InitAckChunk(j)) == SerializedSize(InitAckChunk(i))
      && SerializeChunk(InitAckChunk(j)) == SerializeChunk(InitAckChunk(i))
  {
    var j := i.(cookie := Opaque(PutCookie(i.cookie.cookie)));
    SameParam(i.cookie.cookie);
    SameParams(i, j);
    SameFrame(i, j);
  }

  /** The initiator's view of an INIT ACK that carries one of our cookies. */
  lemma {:induction false} InitAckArrives(i: InitAck)
    requires i.cookie.Ours? && NoFakes(i.aliases) && SerializedSize(InitAckChunk(i)) < TWO16
    ensures var f := SerializeChunk(InitAckChunk(i));
      ParseChunk(f) == (|f|, Ok(InitAckChunk(i.(cookie := Opaque(PutCookie(i.cookie.cookie))))))
  {
    var f := SerializeChunk(InitAckChunk(i));
    SameBytes(i);
    ChunkRoundTrip(InitAckChunk(i.(cookie := Opaque(PutCookie(i.cookie.cookie)))), []);
    assert f + [] == f;
  }

  /** A cookie in a COOKIE ECHO chunk. */
  lemma {:induction false} EchoArrives(c: Cookie, tail: Bytes)
    requires NoFakes(c.aliases) && 4 + CookieSize(c) < TWO16
    ensures var f := SerializeChunk(StateCookieChunk(Opaque(PutCookie(c))));
      && ParseChunk(f + tail) == (|f|, Ok(StateCookieChunk(Opaque(PutCookie(c))))) && (f + tail)[|f|..] == tail
      && MakeOurs(Opaque(PutCookie(c))) == Parsed(c)
  {
    CookieRoundTrip(c);
    ChunkRoundTrip(StateCookieChunk(Opaque(PutCookie(c))), tail);
  }

  lemma {:induction false} CookieFits(i: InitAck)
    requires i.cookie.Ours? && SerializedSize(InitAckChunk(i)) < TWO16
    ensures 4 + CookieSize(i.cookie.cookie) < TWO16
  {}

  /** The chunk that the initiator sends for an INIT ACK it received as bytes. */
  function EchoFor(parsed: Result<Chunk, ChunkError>): Option<Chunk> {
    match parsed
    case Ok(InitAckChunk(ack)) => Some(StateCookieChunk(ack.cookie))
    case _ => None
  }

  /** The cookie that an endpoint finds in a COOKIE ECHO. */
  function CookieIn(parsed: Result<Chunk, ChunkError>): CookieResult {
    match parsed
    case Ok(StateCookieChunk(cookie)) => MakeOurs(cookie)
    case _ => Rejected
  }

  lemma {:induction false} EchoSurvives(parsed: Result<Chunk, ChunkError>, ack: InitAck, c: Cookie, tail: Bytes)
    requires parsed == Ok(InitAckChunk(ack)) && ack.cookie == Opaque(PutCookie(c))
    requires NoFakes(c.aliases) && 4 + CookieSize(c) < TWO16
    ensures EchoFor(parsed).Some? && CookieIn(ParseChunk(SerializeChunk(EchoFor(parsed).value) + tail).1) == Parsed(c)
  {
    EchoArrives(c, tail);
  }

  /** The cookie survives the whole path: written into an INIT ACK, read from it by the initiator, sent back in a
      COOKIE ECHO and read from that, it is the original cookie, so any function of it gives the original MAC. */
  lemma {:induction false} CookieSurvives(i: InitAck, tail: Bytes)
    requires i.cookie.Ours? && NoFakes(i.aliases) && NoFakes(i.cookie.cookie.aliases)
    requires SerializedSize(InitAckChunk(i)) < TWO16
    ensures var echo := EchoFor(ParseChunk(SerializeChunk(InitAckChunk(i))).1);
      echo.Some? && CookieIn(ParseChunk(SerializeChunk(echo.value) + tail).1) == Parsed(i.cookie.cookie)
  {
    CookieFits(i);
    InitAckArrives(i);
    EchoSurvives(ParseChunk(SerializeChunk(InitAckChunk(i))).1, i.(cookie := Opaque(PutCookie(i.cookie.cookie))),
                 i.cookie.cookie, tail);
  }
}
