/** What holds for an endpoint whatever packets arrive: arbitrary bytes, in any order, from anybody. */
module EndpointSafety {
  import opened Basics
  import opened BigEndian
  import opened Chunks
  import opened CookiePath
  import opened Endpoint
  import opened Wire

  // ----- panics -----

  /** Reading one chunk of a packet. */
  lemma {:induction false} CookieBytes(data: Bytes)
    requires StartsWith(data, CHUNK_STATE_COOKIE)
    ensures var len: nat := Read16(data[2..]);
      ParseChunk(data).1 == if 4 <= len <= |data| then Ok(StateCookieChunk(Opaque(data[4..len])))
        else Err(IllegalFormat)
  {}

  lemma {:induction false} EchoPanicsExactly(s: State, hash: (Cookie, Bytes) -> u64, p: Header, data: Bytes,
                                             from: TransportAddress)
    ensures HandleCookieEcho(s, hash, p, data, from).1.Panicked? <==> RunsPastTheEnd(data)
  {
    if StartsWith(data, CHUNK_STATE_COOKIE) {
      CookieBytes(data);
      var len: nat := Read16(data[2..]);
      if 4 <= len <= |data| {
        CookiePanicsExactly(data[4..len]);
      }
    }
  }

  /** For all states, headers and bytes: receiving a packet panics exactly if it starts with a COOKIE ECHO whose
      cookie is 33 to 36 bytes long. */
  lemma {:induction false} ReceivePanicsExactly(s: State, hash: (Cookie, Bytes) -> u64, p: Header, data: Bytes,
                                                from: TransportAddress, tag: u32, tsn: u32)
    ensures Receive(s, hash, p, data, from, tag, tsn).1 <==> RunsPastTheEnd(data)
  {
    EchoPanicsExactly(s, hash, p, data, from);
    if RunsPastTheEnd(data) {
      assert HandleInit(s, hash, p, data, from, tag, tsn) == (s, NotRecognized);
      assert HandleInitAck(s, p, data, from) == (s, NotRecognized);
    }
  }

  function ShortCookie(): Bytes { [CHUNK_STATE_COOKIE, 0] + (Put(37, 2) + Zeros(33)) }

  /** A packet of 37 bytes that makes every endpoint panic. */
  lemma {:induction false} ShortCookiePanics(s: State, hash: (Cookie, Bytes) -> u64, p: Header, from: TransportAddress,
                                             tag: u32, tsn: u32)
    ensures |ShortCookie()| == 37 && Receive(s, hash, p, ShortCookie(), from, tag, tsn).1
  {
    ReadPut16(37, Zeros(33));
    assert ShortCookie()[2..] == Put(37, 2) + Zeros(33);
    ReceivePanicsExactly(s, hash, p, ShortCookie(), from, tag, tsn);
  }

  // ----- the tables -----

  lemma {:induction false} AliasesLead(aliases: map<Alias, nat>, addresses: seq<TransportAddress>, p: Header, id: nat,
                                       a: Alias)
    ensures var all := AddAliases(aliases, addresses, p, id);
      a in all ==> all[a] == id || (a in aliases && all[a] == aliases[a])
    decreases addresses
  {
    if addresses == [] {
    } else {
      AliasesLead(aliases[AliasOf(addresses[0], p) := id], addresses[1..], p, id, a);
    }
  }

  /** Later addresses lead to the same association, so none of them hides an earlier one. */
  lemma {:induction false} AliasesStay(aliases: map<Alias, nat>, addresses: seq<TransportAddress>, p: Header, id: nat,
                                       a: Alias)
    requires a in aliases && aliases[a] == id
    ensures var all := AddAliases(aliases, addresses, p, id); a in all && all[a] == id
    decreases addresses
  {
    if addresses == [] {
    } else {
      AliasesStay(aliases[AliasOf(addresses[0], p) := id], addresses[1..], p, id, a);
    }
  }

  lemma {:induction false} AliasesAreAdded(aliases: map<Alias, nat>, addresses: seq<TransportAddress>, p: Header,
                                           id: nat, i: nat)
    requires i < |addresses|
    ensures var all, a := AddAliases(aliases, addresses, p, id), AliasOf(addresses[i], p); a in all && all[a] == id
    decreases addresses
  {
    var first := aliases[AliasOf(addresses[0], p) := id];
    if i == 0 {
      AliasesStay(first, addresses[1..], p, id, AliasOf(addresses[0], p));
    } else {
      AliasesAreAdded(first, addresses[1..], p, id, i - 1);
    }
  }

  /** A new association is found under its primary address and under every address that the peer named, and the
      associations of all other addresses are found as before. */
  lemma {:induction false} FoundUnderAllAddresses(s: State, p: Header, addresses: seq<TransportAddress>, localTag: u32,
                                                  peerTsn: u32, inStreams: u16, tx: TxSettings,
                                                  address: TransportAddress)
    ensures var t, a := MakeNewAssoc(s, p, addresses, localTag, peerTsn, inStreams, tx), AliasOf(address, p);
      if address == tx.assoc.primaryPath || address in addresses then a in t.aliases && t.aliases[a] == t.assocIdGen
      else (a in t.aliases <==> a in s.aliases) && (a in s.aliases ==> t.aliases[a] == s.aliases[a])
  {
    var id := s.assocIdGen + 1;
    var first := s.aliases[AliasOf(tx.assoc.primaryPath, p) := id];
    if address in addresses {
      var i :| 0 <= i < |addresses| && addresses[i] == address;
      AliasesAreAdded(first, addresses, p, id, i);
    } else if address == tx.assoc.primaryPath {
      AliasesStay(first, addresses, p, id, AliasOf(address, p));
    } else {
      OthersStay(first, addresses, p, id, address);
    }
  }

  lemma {:induction false} OthersStay(aliases: map<Alias, nat>, addresses: seq<TransportAddress>, p: Header, id: nat,
                                      address: TransportAddress)
    requires address !in addresses
    ensures var all, a := AddAliases(aliases, addresses, p, id), AliasOf(address, p);
      (a in all <==> a in aliases) && (a in aliases ==> all[a] == aliases[a])
    decreases addresses
  {
    if addresses == [] {
    } else {
      assert AliasOf(addresses[0], p) != AliasOf(address, p);
      OthersStay(aliases[AliasOf(addresses[0], p) := id], addresses[1..], p, id, address);
    }
  }

  /** A new association gets an id that was never used before. */
  lemma {:induction false} MakeKeepsValid(s: State, p: Header, addresses: seq<TransportAddress>, localTag: u32,
                                          peerTsn: u32, inStreams: u16, tx: TxSettings)
    requires Valid(s)
    ensures var t := MakeNewAssoc(s, p, addresses, localTag, peerTsn, inStreams, tx);
      Valid(t) && t.assocIdGen !in s.assocInfos && t.assocIdGen in t.assocInfos
  {
    var t := MakeNewAssoc(s, p, addresses, localTag, peerTsn, inStreams, tx);
    var first := s.aliases[AliasOf(tx.assoc.primaryPath, p) := t.assocIdGen];
    forall a | a in t.aliases ensures t.aliases[a] in t.assocInfos {
      AliasesLead(first, addresses, p, t.assocIdGen, a);
    }
  }

  lemma {:induction false} WithoutKeepsKnown<N>(notes: seq<(nat, N)>, id: nat, last: nat)
    requires KnownIds(notes, last)
    ensures KnownIds(NotesWithout(notes, id), last)
  {
    if notes == [] {
    } else {
      WithoutKeepsKnown(notes[1..], id, last);
    }
  }

  lemma {:induction false} AbortKeepsValid(s: State, id: nat, from: TransportAddress, p: Header, abort: Chunk)
    requires Valid(s) && id <= s.assocIdGen
    ensures Valid(Aborted(s, id, from, p, abort))
  {
    WithoutKeepsKnown(s.txNotes, id, s.assocIdGen);
    WithoutKeepsKnown(s.rxNotes, id, s.assocIdGen);
  }

  lemma {:induction false} ChunkKeepsValid(s: State, id: nat, from: TransportAddress, p: Header, peerTag: u32,
                                           item: Result<Chunk, ChunkError>)
    requires Valid(s) && id <= s.assocIdGen
    ensures var t := HandleChunk(s, id, from, p, peerTag, item);
      Valid(t) && t == s.(sendImmediate := t.sendImmediate, rxNotes := t.rxNotes)
  {}

  lemma {:induction false} ChunksKeepValid(s: State, id: nat, from: TransportAddress, p: Header, peerTag: u32,
                                           items: seq<Result<Chunk, ChunkError>>)
    requires Valid(s) && id <= s.assocIdGen
    ensures var t := HandleChunks(s, id, from, p, peerTag, items);
      Valid(t) && t.assocIdGen == s.assocIdGen && t.waitInitAck == s.waitInitAck
    decreases items
  {
    if items == [] {
    } else if items[0].Ok? && items[0].value.Abort? {
      AbortKeepsValid(s, id, from, p, items[0].value);
    } else {
      ChunkKeepsValid(s, id, from, p, peerTag, items[0]);
      ChunksKeepValid(HandleChunk(s, id, from, p, peerTag, items[0]), id, from, p, peerTag, items[1..]);
    }
  }

  lemma {:induction false} ProcessKeepsValid(s: State, id: nat, from: TransportAddress, p: Header, data: Bytes)
    requires Valid(s)
    ensures var t := ProcessChunks(s, id, from, p, data);
      Valid(t) && t.assocIdGen == s.assocIdGen && t.waitInitAck == s.waitInitAck
  {
    if id in s.assocInfos && s.assocInfos[id].localTag == p.tag {
      ChunksKeepValid(s, id, from, p, s.assocInfos[id].peerTag, Scan(data));
    }
  }

  // ----- the handlers -----

  /** Answering an INIT, or refusing to, leaves nothing behind but the answer. */
  lemma {:induction false} InitHandled(s: State, hash: (Cookie, Bytes) -> u64, p: Header, data: Bytes,
                                       from: TransportAddress, tag: u32, tsn: u32)
    ensures var (t, r) := HandleInit(s, hash, p, data, from, tag, tsn);
      && t == s.(sendImmediate := t.sendImmediate) && s.sendImmediate <= t.sendImmediate
      && |t.sendImmediate| <= |s.sendImmediate| + 1 && (r.NotRecognized? <==> !StartsWith(data, CHUNK_INIT))
      && (r.NotRecognized? ==> t == s)
  {}

  lemma {:induction false} InitAckHandled(s: State, p: Header, data: Bytes, from: TransportAddress)
    requires Valid(s)
    ensures var (t, r) := HandleInitAck(s, p, data, from);
      && Valid(t) && t.assocIdGen == s.assocIdGen && (r.NotRecognized? <==> !StartsWith(data, CHUNK_INIT_ACK))
      && t.waitInitAck == (if AckAwaited(s, p, data, from) then s.waitInitAck - {AliasOf(from, p)} else s.waitInitAck)
      && (!AckAwaited(s, p, data, from) ==> t == s)
      && (AckAwaited(s, p, data, from) ==>
            AliasOf(from, p) in t.waitCookieAck && |t.sendImmediate| == |s.sendImmediate| + 1)
  {}

  lemma {:induction false} EchoHandled(s: State, hash: (Cookie, Bytes) -> u64, p: Header, data: Bytes,
                                       from: TransportAddress)
    requires Valid(s)
    ensures var (t, r, rest) := HandleCookieEcho(s, hash, p, data, from);
      && Valid(t) && t.waitInitAck == s.waitInitAck && t.waitCookieAck == s.waitCookieAck
      && t.assocIdGen == (if EchoOpens(s, hash, p, data, from) then s.assocIdGen + 1 else s.assocIdGen)
      && (r.NotRecognized? <==> !StartsWith(data, CHUNK_STATE_COOKIE)) && (r.NotRecognized? ==> t == s && rest == data)
      && (r.Handled? ==> EchoOpens(s, hash, p, data, from) || AliasOf(from, p) in t.aliases)
  {
    if EchoOpens(s, hash, p, data, from) {
      var c := MakeOurs(ParseChunk(data).1.value.cookie).cookie;
      MakeKeepsValid(s, p, c.aliases, c.localTag, c.peerTsn, c.incomingStreams, CookieTx(s, c));
    }
  }

  lemma {:induction false} CookieAckHandled(s: State, p: Header, data: Bytes, from: TransportAddress)
    requires Valid(s)
    ensures var t := HandleCookieAck(s, p, data, from).0;
      && Valid(t) && t.waitInitAck == s.waitInitAck
      && t.assocIdGen == (if AckOpens(s, p, data, from) then s.assocIdGen + 1 else s.assocIdGen)
  {
    if AckOpens(s, p, data, from) {
      var w := s.waitCookieAck[AliasOf(from, p)];
      MakeKeepsValid(s.(waitCookieAck := s.waitCookieAck - {AliasOf(from, p)}), p, w.aliases, w.localTag, w.peerTsn,
                     Min(w.localInStreams, w.peerInStreams), HalfOpenTx(s, w, p));
    }
  }

  lemma {:induction false} RestHandled(s: State, p: Header, data: Bytes, from: TransportAddress, echo: Special<nat>)
    requires Valid(s)
    ensures var t := ReceiveRest(s, p, data, from, echo);
      && Valid(t) && t.waitInitAck == s.waitInitAck
      && t.assocIdGen == (if AckOpens(s, p, data, from) then s.assocIdGen + 1 else s.assocIdGen)
  {
    CookieAckHandled(s, p, data, from);
    var (t, ack, rest) := HandleCookieAck(s, p, data, from);
    var to := Addressee(t, echo, ack, AliasOf(from, p));
    if !ack.Error? && to.Some? {
      ProcessKeepsValid(t, to.value, from, p, rest);
    }
  }

  // ----- whole packets -----

  /** What a packet that is neither INIT nor INIT ACK does. */
  lemma {:induction false} LaterPacket(s: State, hash: (Cookie, Bytes) -> u64, p: Header, data: Bytes,
                                       from: TransportAddress, tag: u32, tsn: u32)
    requires Valid(s) && !StartsWith(data, CHUNK_INIT) && !StartsWith(data, CHUNK_INIT_ACK)
    ensures var t := Receive(s, hash, p, data, from, tag, tsn).0;
      && Valid(t) && t.waitInitAck == s.waitInitAck && s.assocIdGen <= t.assocIdGen
      && (t.assocIdGen > s.assocIdGen <==> EchoOpens(s, hash, p, data, from) || AckOpens(s, p, data, from))
  {
    var (s3, echo, rest) := HandleCookieEcho(s, hash, p, data, from);
    EchoHandled(s, hash, p, data, from);
    RestHandled(s3, p, rest, from, echo);
  }

  /** Whatever arrives: the tables stay consistent. */
  lemma {:induction false} ReceiveKeepsValid(s: State, hash: (Cookie, Bytes) -> u64, p: Header, data: Bytes,
                                             from: TransportAddress, tag: u32, tsn: u32)
    requires Valid(s)
    ensures Valid(Receive(s, hash, p, data, from, tag, tsn).0)
  {
    InitHandled(s, hash, p, data, from, tag, tsn);
    InitAckHandled(s, p, data, from);
    if !StartsWith(data, CHUNK_INIT) && !StartsWith(data, CHUNK_INIT_ACK) {
      LaterPacket(s, hash, p, data, from, tag, tsn);
    }
  }

  /** Whatever arrives: an association is made exactly for a COOKIE ECHO with a cookie that this endpoint signed, or for
      the COOKIE ACK that a half-open association waits for, and only for peers without one. */
  lemma {:induction false} AssociationMadeExactly(s: State, hash: (Cookie, Bytes) -> u64, p: Header, data: Bytes,
                                                  from: TransportAddress, tag: u32, tsn: u32)
    requires Valid(s)
    ensures Receive(s, hash, p, data, from, tag, tsn).0.assocIdGen > s.assocIdGen
      <==> EchoOpens(s, hash, p, data, from) || AckOpens(s, p, data, from)
  {
    InitHandled(s, hash, p, data, from, tag, tsn);
    InitAckHandled(s, p, data, from);
    if !StartsWith(data, CHUNK_INIT) && !StartsWith(data, CHUNK_INIT_ACK) {
      LaterPacket(s, hash, p, data, from, tag, tsn);
    }
  }

  /** An INIT, whatever it carries, leaves no state behind: nothing but at most one answer is queued. */
  lemma {:induction false} InitIsStateless(s: State, hash: (Cookie, Bytes) -> u64, p: Header, data: Bytes,
                                           from: TransportAddress, tag: u32, tsn: u32)
    requires StartsWith(data, CHUNK_INIT)
    ensures var t := Receive(s, hash, p, data, from, tag, tsn).0;
      && t == s.(sendImmediate := t.sendImmediate)
      && s.sendImmediate <= t.sendImmediate && |t.sendImmediate| <= |s.sendImmediate| + 1
  {
    InitHandled(s, hash, p, data, from, tag, tsn);
  }

  /** The answer to an INIT: back to its sender under the tag that it named, with our own numbers, and with a cookie
      that we have signed and that holds what both sides said. */
  ghost predicate Answers(s: State, hash: (Cookie, Bytes) -> u64, p: Header, from: TransportAddress, init: InitChunk,
                          tag: u32, tsn: u32, entry: (TransportAddress, Header, Chunk)) {
    && entry.0 == from && entry.1 == Header(p.to, p.from, init.initiateTag) && entry.2.InitAckChunk?
    && entry.2.ack.initiateTag == tag && entry.2.ack.initialTsn == tsn
    && entry.2.ack.aRwnd == s.settings.inBufferLimit % TWO32 && entry.2.ack.unrecognized == init.unrecognized
    && entry.2.ack.cookie.Ours?
    && var c := entry.2.ack.cookie.cookie;
      && CalcMac(hash, c, s.settings.cookieSecret) == c.mac && c.localTag == tag && c.localTsn == tsn
      && c.peerTag == init.initiateTag && c.peerTsn == init.initialTsn && c.peerArwnd == init.aRwnd
      && c.initAddress == from && c.peerPort == p.from && c.localPort == p.to && c.aliases == init.aliases
      && c.incomingStreams == Min(s.settings.incomingStreams, init.outboundStreams)
      && c.outgoingStreams == Min(s.settings.outgoingStreams, init.inboundStreams)
  }

  /** An INIT is answered exactly if it can be parsed and is alone in its packet. The numbers are fresh ones, or those
      of our own INIT if we have sent one to that peer. */
  lemma {:induction false} InitAnsweredExactly(s: State, hash: (Cookie, Bytes) -> u64, p: Header, data: Bytes,
                                               from: TransportAddress, tag: u32, tsn: u32)
    requires StartsWith(data, CHUNK_INIT)
    ensures var t, (size, chunk) := Receive(s, hash, p, data, from, tag, tsn).0, ParseChunk(data);
      var own := AliasOf(from, p) in s.waitInitAck;
      var ourTag := if own then s.waitInitAck[AliasOf(from, p)].localTag else tag;
      var ourTsn := if own then s.waitInitAck[AliasOf(from, p)].localTsn else tsn;
      if chunk.Ok? && size == |data| && chunk.value.Init? then
        && |t.sendImmediate| == |s.sendImmediate| + 1 && s.sendImmediate <= t.sendImmediate
        && Answers(s, hash, p, from, chunk.value.init, ourTag, ourTsn, t.sendImmediate[|s.sendImmediate|])
      else t == s
  {
    var (size, chunk) := ParseChunk(data);
    if chunk.Ok? && size == |data| && chunk.value.Init? {
      var own := AliasOf(from, p) in s.waitInitAck;
      AnswerIsComplete(s, hash, p, from, chunk.value.init,
                       if own then s.waitInitAck[AliasOf(from, p)].localTag else tag,
                       if own then s.waitInitAck[AliasOf(from, p)].localTsn else tsn);
    }
  }

  lemma {:induction false} AnswerIsComplete(s: State, hash: (Cookie, Bytes) -> u64, p: Header, from: TransportAddress,
                                            init: InitChunk, tag: u32, tsn: u32)
    ensures var t := AnswerInit(s, hash, p, from, init, tag, tsn);
      && |t.sendImmediate| == |s.sendImmediate| + 1 && s.sendImmediate <= t.sendImmediate
      && Answers(s, hash, p, from, init, tag, tsn, t.sendImmediate[|s.sendImmediate|])
  {}

  /** Whatever arrives: a half-open association moves on exactly with the INIT ACK that it waits for, which is
      answered with one COOKIE ECHO. */
  lemma {:induction false} HalfOpenMovesExactly(s: State, hash: (Cookie, Bytes) -> u64, p: Header, data: Bytes,
                                                from: TransportAddress, tag: u32, tsn: u32)
    requires Valid(s)
    ensures var t := Receive(s, hash, p, data, from, tag, tsn).0;
      && t.waitInitAck == (if AckAwaited(s, p, data, from) then s.waitInitAck - {AliasOf(from, p)} else s.waitInitAck)
      && (AckAwaited(s, p, data, from) ==>
            AliasOf(from, p) in t.waitCookieAck && |t.sendImmediate| == |s.sendImmediate| + 1)
  {
    InitHandled(s, hash, p, data, from, tag, tsn);
    InitAckHandled(s, p, data, from);
    if !StartsWith(data, CHUNK_INIT) && !StartsWith(data, CHUNK_INIT_ACK) {
      LaterPacket(s, hash, p, data, from, tag, tsn);
    }
  }

  /** The packet names the verification tag of the association with its sender. */
  predicate TagMatches(s: State, p: Header, from: TransportAddress) {
    var alias := AliasOf(from, p);
    alias in s.aliases && s.aliases[alias] in s.assocInfos && s.assocInfos[s.aliases[alias]].localTag == p.tag
  }

  /** Outside the handshake, a packet with any other verification tag changes nothing, whatever it carries. */
  lemma {:induction false} WrongTagIgnored(s: State, hash: (Cookie, Bytes) -> u64, p: Header, data: Bytes,
                                           from: TransportAddress, tag: u32, tsn: u32)
    requires OutsideHandshake(data) && !TagMatches(s, p, from)
    ensures Receive(s, hash, p, data, from, tag, tsn) == (s, false)
  {}
}
