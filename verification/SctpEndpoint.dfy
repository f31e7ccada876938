/** The endpoint as the object the program works with. */
module SctpEndpoint {
  import opened Basics
  import opened Chunks
  import opened Wire
  import E = Endpoint
  import ES = EndpointSafety
  import PD = PacketDispatch
  import T = TxModel

  class Sctp {
    const settings: E.Settings
    const hash: (Cookie, Bytes) -> u64
    var assocIdGen: nat
    var newAssoc: Option<E.NewAssoc>
    var assocInfos: map<nat, E.AssocInfo>
    var aliases: map<E.Alias, nat>
    var waitInitAck: map<E.Alias, E.WaitInitAck>
    var waitCookieAck: map<E.Alias, E.WaitCookieAck>
    var txNotifications: seq<(nat, TxNotification)>
    var sendImmediate: seq<(TransportAddress, E.Header, Chunk)>
    var rxNotifications: seq<(nat, Chunk)>

    ghost function State(): E.State
      reads this
    {
      E.State(settings, assocIdGen, newAssoc, assocInfos, aliases, waitInitAck, waitCookieAck,
              txNotifications, sendImmediate, rxNotifications)
    }

    /** Every alias leads to an association, and every id in use was handed out before. */
    ghost predicate Valid()
      reads this
    {
      E.Valid(State())
    }

    constructor (settings: E.Settings, hash: (Cookie, Bytes) -> u64)
      ensures Valid() && State() == E.New(settings) && this.hash == hash
    {
      this.settings := settings;
      this.hash := hash;
      assocIdGen := 1;
      newAssoc := None;
      assocInfos := map[];
      aliases := map[];
      waitInitAck := map[];
      waitCookieAck := map[];
      txNotifications := [];
      sendImmediate := [];
      rxNotifications := [];
    }

    /** `tag` and `tsn` are the random numbers drawn by the call. */
    method InitAssociation(peer: TransportAddress, peerPort: u16, localPort: u16, tag: u32, tsn: u32)
      requires Valid()
      modifies this
      ensures Valid() && State() == E.InitAssociation(old(State()), peer, peerPort, localPort, tag, tsn)
    {
      waitInitAck := waitInitAck[E.Alias(peer, peerPort, localPort) := E.WaitInitAck(tag, tsn)];
      var init := E.CreateInit(settings, tag, tsn);
      sendImmediate := sendImmediate + [(peer, E.Header(localPort, peerPort, 0), Init(init))];
    }

    /** The next packet that does not belong to an association. */
    method NextSendImmediate() returns (next: Option<(TransportAddress, E.Header, Chunk)>)
      requires Valid()
      modifies this`sendImmediate
      ensures Valid() && next == (if old(sendImmediate) == [] then None else Some(old(sendImmediate)[0]))
      ensures sendImmediate == if old(sendImmediate) == [] then [] else old(sendImmediate)[1..]
    {
      if sendImmediate == [] {
        return None;
      }
      next := Some(sendImmediate[0]);
      sendImmediate := sendImmediate[1..];
    }

    method AnswerInit(packet: E.Header, from: TransportAddress, init: InitChunk, tag: u32, tsn: u32)
      modifies this`sendImmediate
      ensures State() == E.AnswerInit(old(State()), hash, packet, from, init, tag, tsn)
    {
      var cookie := Cookie(0, from, packet.from, packet.to, init.aliases, tag, init.initiateTag, tsn, init.initialTsn,
                           Min(settings.incomingStreams, init.outboundStreams),
                           Min(settings.outgoingStreams, init.inboundStreams), init.aRwnd);
      cookie := cookie.(mac := E.CalcMac(hash, cookie, settings.cookieSecret));
      var ack := E.CreateInitAck(settings, init.unrecognized, Ours(cookie), tsn, tag);
      sendImmediate := sendImmediate + [(from, E.Header(packet.to, packet.from, init.initiateTag), InitAckChunk(ack))];
    }

    method HandleInit(packet: E.Header, data: Bytes, from: TransportAddress, tag: u32, tsn: u32)
      returns (r: E.Special<()>)
      requires Valid()
      modifies this`sendImmediate
      ensures Valid() && (State(), r) == E.HandleInit(old(State()), hash, packet, data, from, tag, tsn)
    {
      if !E.StartsWith(data, CHUNK_INIT) {
        return E.NotRecognized;
      }
      var (size, chunk) := ParseChunk(data);
      if chunk.Err? || !chunk.value.Init? || size != |data| {
        return E.Error;
      }
      var alias := E.AliasOf(from, packet);
      if alias in waitInitAck {
        AnswerInit(packet, from, chunk.value.init, waitInitAck[alias].localTag, waitInitAck[alias].localTsn);
      } else {
        AnswerInit(packet, from, chunk.value.init, tag, tsn);
      }
      return E.Handled(());
    }

    method HandleInitAck(packet: E.Header, data: Bytes, from: TransportAddress) returns (r: E.Special<()>)
      requires Valid()
      modifies this`sendImmediate, this`waitInitAck, this`waitCookieAck
      ensures Valid() && (State(), r) == E.HandleInitAck(old(State()), packet, data, from)
    {
      if !E.StartsWith(data, CHUNK_INIT_ACK) {
        return E.NotRecognized;
      }
      var (size, chunk) := ParseChunk(data);
      var alias := E.AliasOf(from, packet);
      if chunk.Err? || !chunk.value.InitAckChunk? || size != |data| || alias !in waitInitAck {
        return E.Error;
      }
      var ack, half := chunk.value.ack, waitInitAck[alias];
      waitInitAck := waitInitAck - {alias};
      waitCookieAck := waitCookieAck[alias :=
        E.WaitCookieAck(half.localTag, ack.initiateTag, ack.aliases, from, half.localTsn, ack.initialTsn,
                        settings.incomingStreams, ack.inboundStreams, settings.outgoingStreams, ack.outboundStreams,
                        ack.aRwnd)];
      sendImmediate := sendImmediate
        + [(from, E.Header(packet.to, packet.from, ack.initiateTag), StateCookieChunk(ack.cookie))];
      return E.Handled(());
    }

    method MakeNewAssoc(packet: E.Header, addresses: seq<TransportAddress>, localTag: u32, peerTsn: u32, inStreams: u16,
                        tx: E.TxSettings) returns (id: nat)
      requires Valid()
      modifies this`assocIdGen, this`assocInfos, this`aliases, this`newAssoc
      ensures Valid() && State() == E.MakeNewAssoc(old(State()), packet, addresses, localTag, peerTsn, inStreams, tx)
      ensures id == assocIdGen && id !in old(assocInfos) && id in assocInfos
    {
      ES.MakeKeepsValid(State(), packet, addresses, localTag, peerTsn, inStreams, tx);
      assocIdGen := assocIdGen + 1;
      id := assocIdGen;
      assocInfos := assocInfos[id := E.AssocInfo(localTag, tx.peerTag)];
      aliases := aliases[E.AliasOf(tx.assoc.primaryPath, packet) := id];
      ghost var first := aliases;
      for i := 0 to |addresses|
        modifies this`aliases
        invariant E.AddAliases(aliases, addresses[i..], packet, id) == E.AddAliases(first, addresses, packet, id)
      {
        assert addresses[i..][1..] == addresses[i + 1..];
        aliases := aliases[E.AliasOf(addresses[i], packet) := id];
      }
      newAssoc := Some(E.NewAssoc(id, peerTsn, inStreams, settings.inBufferLimit, tx));
    }

    method HandleCookieEcho(packet: E.Header, data: Bytes, from: TransportAddress)
      returns (r: E.Special<nat>, rest: Bytes)
      requires Valid()
      modifies this`assocIdGen, this`assocInfos, this`aliases, this`newAssoc, this`txNotifications
      ensures Valid() && (State(), r, rest) == E.HandleCookieEcho(old(State()), hash, packet, data, from)
    {
      if !E.StartsWith(data, CHUNK_STATE_COOKIE) {
        return E.NotRecognized, data;
      }
      var (size, chunk) := ParseChunk(data);
      if chunk.Err? || !chunk.value.StateCookieChunk? {
        return E.Error, data;
      }
      var ours := MakeOurs(chunk.value.cookie);
      if ours.ParsePanicked? {
        return E.Panicked, data;
      }
      if ours.Rejected? || E.CalcMac(hash, ours.cookie, settings.cookieSecret) != ours.cookie.mac {
        return E.Error, data;
      }
      if E.AliasOf(from, packet) in aliases {
        return E.Handled(aliases[E.AliasOf(from, packet)]), data[size..];
      }
      var c := ours.cookie;
      var tx := E.TxSettings(c.peerTag, c.localPort, c.peerPort,
        T.AssocTxSettings(c.initAddress, c.localTsn, c.outgoingStreams, settings.outBufferLimit, c.peerArwnd));
      var id := MakeNewAssoc(packet, c.aliases, c.localTag, c.peerTsn, c.incomingStreams, tx);
      txNotifications := txNotifications + [(id, Send(StateCookieAck))];
      return E.Handled(id), data[size..];
    }

    method HandleCookieAck(packet: E.Header, data: Bytes, from: TransportAddress)
      returns (r: E.Special<nat>, rest: Bytes)
      requires Valid()
      modifies this`assocIdGen, this`assocInfos, this`aliases, this`newAssoc, this`waitCookieAck
      ensures Valid() && (State(), r, rest) == E.HandleCookieAck(old(State()), packet, data, from)
    {
      if !E.StartsWith(data, CHUNK_STATE_COOKIE_ACK) {
        return E.NotRecognized, data;
      }
      var (size, chunk) := ParseChunk(data);
      if chunk.Err? || !chunk.value.StateCookieAck? {
        return E.Error, data;
      }
      rest := data[size..];
      var alias := E.AliasOf(from, packet);
      if alias in aliases {
        return E.Handled(aliases[alias]), rest;
      }
      if alias !in waitCookieAck {
        return E.Error, rest;
      }
      var w := waitCookieAck[alias];
      waitCookieAck := waitCookieAck - {alias};
      var tx := E.TxSettings(w.peerTag, packet.to, packet.from,
        T.AssocTxSettings(w.originalAddress, w.localTsn, Min(w.localOutStreams, w.peerOutStreams),
                          settings.outBufferLimit, w.peerArwnd));
      var id := MakeNewAssoc(packet, w.aliases, w.localTag, w.peerTsn, Min(w.localInStreams, w.peerInStreams), tx);
      return E.Handled(id), rest;
    }

    method HandleChunk(id: nat, from: TransportAddress, packet: E.Header, peerTag: u32, item: Result<Chunk, ChunkError>)
      modifies this`sendImmediate, this`rxNotifications
      ensures State() == E.HandleChunk(old(State()), id, from, packet, peerTag, item)
    {
      var back := E.Header(packet.to, packet.from, peerTag);
      match item {
        case Ok(Init(_)) =>
        case Ok(InitAckChunk(_)) =>
        case Ok(HeartBeatChunk(beat)) => sendImmediate := sendImmediate + [(from, back, HeartBeatAckChunk(beat))];
        case Ok(Padding(_)) =>
        case Ok(chunk) => rxNotifications := rxNotifications + [(id, chunk)];
        case Err(Unrecognized(report, _)) =>
          if report {
            sendImmediate := sendImmediate + [(from, back, OpError)];
          }
        case Err(_) =>
      }
    }

    method Abort(id: nat, from: TransportAddress, packet: E.Header, abort: Chunk)
      modifies this`aliases, this`assocInfos, this`txNotifications, this`rxNotifications, this`sendImmediate
      ensures State() == E.Aborted(old(State()), id, from, packet, abort)
    {
      aliases := map a | a in aliases && aliases[a] != id :: aliases[a];
      assocInfos := assocInfos - {id};
      txNotifications := E.NotesWithout(txNotifications, id);
      rxNotifications := E.NotesWithout(rxNotifications, id);
      sendImmediate := E.SendsWithout(sendImmediate, from, packet);
      rxNotifications := rxNotifications + [(id, abort)];
    }

    /** The parse-and-advance loop; it ends on every input, and at an ABORT. */
    method ProcessChunks(id: nat, from: TransportAddress, packet: E.Header, data: Bytes)
      requires Valid()
      modifies this`aliases, this`assocInfos, this`txNotifications, this`rxNotifications, this`sendImmediate
      ensures Valid() && State() == E.ProcessChunks(old(State()), id, from, packet, data)
      ensures if id in old(assocInfos) && old(assocInfos)[id].localTag == packet.tag
        then PD.Dispatched(old(State()), State(), id, from, packet, old(assocInfos)[id].peerTag, Scan(data))
        else State() == old(State())
    {
      PD.ChunksAreDispatched(State(), id, from, packet, data);
      ES.ProcessKeepsValid(State(), id, from, packet, data);
      if id !in assocInfos || assocInfos[id].localTag != packet.tag {
        return;
      }
      var peerTag, rest, goesOn := assocInfos[id].peerTag, data, true;
      ghost var done := E.HandleChunks(State(), id, from, packet, peerTag, Scan(data));
      while rest != [] && goesOn
        invariant E.HandleChunks(State(), id, from, packet, peerTag, if goesOn then Scan(rest) else []) == done
        decreases |rest|
      {
        var (size, chunk) := ParseChunk(rest);
        ScanFront(rest, size, chunk);
        if chunk.Ok? && chunk.value.Abort? {
          Abort(id, from, packet, chunk.value);
          return;
        }
        HandleChunk(id, from, packet, peerTag, chunk);
        rest := rest[size..];
        goesOn := GoesOn(chunk);
      }
    }

    /** A packet behind its INIT, if any, and behind a COOKIE ECHO. */
    method ReceiveRest(packet: E.Header, data: Bytes, from: TransportAddress, echo: E.Special<nat>)
      requires Valid() && (echo.Handled? || echo.NotRecognized?)
      modifies this
      ensures Valid() && State() == E.ReceiveRest(old(State()), packet, data, from, echo)
    {
      var ack, rest := HandleCookieAck(packet, data, from);
      if ack.Error? {
        return;
      }
      var alias := E.AliasOf(from, packet);
      if ack.Handled? || echo.Handled? || alias in aliases {
        var id := if ack.Handled? then ack.value else if echo.Handled? then echo.value else aliases[alias];
        ProcessChunks(id, from, packet, rest);
      }
    }

    /** Everything behind the packet header; `tag` and `tsn` are the random numbers that an answer may draw. */
    method ReceiveData(packet: E.Header, data: Bytes, from: TransportAddress, tag: u32, tsn: u32)
      returns (panicked: bool)
      requires Valid()
      modifies this
      ensures Valid() && (State(), panicked) == E.Receive(old(State()), hash, packet, data, from, tag, tsn)
      ensures panicked <==> E.RunsPastTheEnd(data)
      ensures assocIdGen > old(assocIdGen)
        <==> E.EchoOpens(old(State()), hash, packet, data, from) || E.AckOpens(old(State()), packet, data, from)
      ensures E.OutsideHandshake(data) && ES.TagMatches(old(State()), packet, from) ==>
        var id := old(aliases)[E.AliasOf(from, packet)];
        PD.Dispatched(old(State()), State(), id, from, packet, old(assocInfos)[id].peerTag, Scan(data))
    {
      if E.OutsideHandshake(data) && ES.TagMatches(State(), packet, from) {
        PD.PacketIsDispatched(State(), hash, packet, data, from, tag, tsn);
      }
      ES.ReceivePanicsExactly(State(), hash, packet, data, from, tag, tsn);
      ES.AssociationMadeExactly(State(), hash, packet, data, from, tag, tsn);
      var init := HandleInit(packet, data, from, tag, tsn);
      if init != E.NotRecognized {
        return false;
      }
      var initAck := HandleInitAck(packet, data, from);
      if initAck != E.NotRecognized {
        return false;
      }
      var echo, rest := HandleCookieEcho(packet, data, from);
      if echo.Panicked? || echo.Error? {
        return echo.Panicked?;
      }
      ReceiveRest(packet, rest, from, echo);
      return false;
    }
  }

  lemma {:induction false} ScanFront(data: Bytes, size: nat, chunk: Result<Chunk, ChunkError>)
    requires data != [] && ParseChunk(data) == (size, chunk)
    ensures Scan(data) != [] && Scan(data)[0] == chunk
    ensures Scan(data)[1..] == if GoesOn(chunk) then Scan(data[size..]) else []
  {}
}
