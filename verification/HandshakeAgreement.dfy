/** Whatever the network does, the two ends of a handshake agree. */
module HandshakeAgreement {
  import opened Basics
  import opened Chunks
  import opened Wire
  import opened Endpoint
  import opened Handshake
  import opened HandshakeSteps
  import AS = AssociationSafety

  // ----- the responder -----

  lemma {:induction false} QueueKeepsResponder(w: World, c: Choice, s: State, t: State, made: seq<Made>)
    requires Responder(w, c, s, made) && t == s.(sendImmediate := t.sendImmediate, rxNotes := t.rxNotes) && SendsB(w, t)
    ensures Responder(w, c, t, made) && NewlyMade(s, t) == []
  {}

  lemma {:induction false} AnswerIsAckEntry(w: World, s: State, tag: u32, tsn: u32)
    requires s.settings == w.settingsB
    ensures AnswerInit(s, w.hash, InitEntry(w).1, w.addrA, InitOf(w), tag, tsn)
         == s.(sendImmediate := s.sendImmediate + [AckEntry(w, tag, tsn)])
  {}

  lemma {:induction false} InitAtB(w: World, c: Choice, s: State, made: seq<Made>, tag: u32, tsn: u32)
    requires Responder(w, c, s, made)
    ensures var (t, panicked) := Receive(s, w.hash, InitEntry(w).1, SerializeChunk(Init(InitOf(w))), w.addrA, tag, tsn);
      !panicked && NewlyMade(s, t) == [] && Responder(w, c, t, made)
  {
    InitOnWire(w);
    ReceiveInit(s, w.hash, InitEntry(w).1, SerializeChunk(Init(InitOf(w))), w.addrA, tag, tsn, InitOf(w));
    AnswerIsAckEntry(w, s, tag, tsn);
    QueueKeepsResponder(w, c, s, s.(sendImmediate := s.sendImmediate + [AckEntry(w, tag, tsn)]), made);
  }

  /** The state after a responder's first COOKIE ECHO. */
  function Opened(w: World, s: State, tag: u32, tsn: u32): State {
    var c := CookieOf(w, tag, tsn);
    var t := MakeNewAssoc(s, EchoEntry(w, tag, tsn).1, c.aliases, c.localTag, c.peerTsn, c.incomingStreams,
                          CookieTx(s, c));
    t.(txNotes := t.txNotes + [(t.assocIdGen, Send(StateCookieAck))])
  }

  lemma {:induction false} OpensOnce(w: World, c: Choice, s: State, made: seq<Made>)
    requires Responder(w, c, s, made) && c.Chosen? && Idle(s) && made == []
    ensures var t := Opened(w, s, c.tag, c.tsn);
      Responder(w, c, t, NewlyMade(s, t)) && NewlyMade(s, t) == [MadeByB(w, c.tag, c.tsn)]
  {}

  lemma {:induction false} EchoHandled(w: World, s: State, data: Bytes, tag: u32, tsn: u32)
    requires s.settings == w.settingsB && StartsWith(data, CHUNK_STATE_COOKIE)
    requires ParseChunk(data) == (|data|, Ok(EchoOf(w, tag, tsn)))
    requires MakeOurs(EchoOf(w, tag, tsn).cookie) == Parsed(CookieOf(w, tag, tsn))
    ensures HandleCookieEcho(s, w.hash, EchoEntry(w, tag, tsn).1, data, w.addrA).0
         == if AliasB(w) in s.aliases then s else Opened(w, s, tag, tsn)
  {}

  lemma {:induction false} OpensAtMostOnce(w: World, c: Choice, s: State, made: seq<Made>, t: State)
    requires Responder(w, c, s, made) && c.Chosen?
    requires t == if AliasB(w) in s.aliases then s else Opened(w, s, c.tag, c.tsn)
    ensures Responder(w, c, t, made + NewlyMade(s, t)) && made + NewlyMade(s, t) != []
  {
    if Idle(s) {
      OpensOnce(w, c, s, made);
    } else {
      QueueKeepsResponder(w, c, s, s, made);
    }
  }

  lemma {:induction false} EchoAtB(w: World, c: Choice, s: State, made: seq<Made>, tag: u32, tsn: u32)
    requires Responder(w, c, s, made) && c.Chosen?
    ensures var (t, panicked) := Receive(s, w.hash, EchoEntry(w, c.tag, c.tsn).1,
                                         SerializeChunk(EchoOf(w, c.tag, c.tsn)),
                                         w.addrA, tag, tsn);
      !panicked && Responder(w, c, t, made + NewlyMade(s, t)) && made + NewlyMade(s, t) != []
  {
    var p, data := EchoEntry(w, c.tag, c.tsn).1, SerializeChunk(EchoOf(w, c.tag, c.tsn));
    EchoOnWire(w, c.tag, c.tsn);
    EchoHandled(w, s, data, c.tag, c.tsn);
    ReceiveEcho(s, w.hash, p, data, w.addrA, tag, tsn, EchoOf(w, c.tag, c.tsn).cookie, CookieOf(w, c.tag, c.tsn));
    OpensAtMostOnce(w, c, s, made, HandleCookieEcho(s, w.hash, p, data, w.addrA).0);
  }

  lemma {:induction false} OrdinaryAtB(w: World, c: Choice, s: State, made: seq<Made>, p: Header, data: Bytes)
    requires Responder(w, c, s, made) && Ordinary(data)
    ensures var (t, panicked) := Receive(s, w.hash, p, data, w.addrA, 0, 0);
      !panicked && NewlyMade(s, t) == [] && Responder(w, c, t, made)
  {
    ReceiveOrdinary(s, w.hash, p, data, w.addrA, 0, 0);
    var alias := AliasOf(w.addrA, p);
    if alias in s.aliases {
      ProcessKeepsTables(s, s.aliases[alias], w.addrA, p, data);
    }
    QueueKeepsResponder(w, c, s, Rest(s, p, w.addrA, data), made);
  }

  // ----- the initiator -----

  lemma {:induction false} QueueKeepsInitiator(w: World, c: Choice, s: State, t: State, made: seq<Made>)
    requires Initiator(w, c, s, made) && t == s.(sendImmediate := t.sendImmediate, rxNotes := t.rxNotes)
      && SendsA(w, c, t)
    ensures Initiator(w, c, t, made) && NewlyMade(s, t) == []
  {}

  lemma {:induction false} OrdinaryAtA(w: World, c: Choice, s: State, made: seq<Made>, p: Header, data: Bytes)
    requires Initiator(w, c, s, made) && Ordinary(data)
    ensures var (t, panicked) := Receive(s, w.hash, p, data, w.addrB, 0, 0);
      !panicked && NewlyMade(s, t) == [] && Initiator(w, c, t, made)
  {
    ReceiveOrdinary(s, w.hash, p, data, w.addrB, 0, 0);
    var alias := AliasOf(w.addrB, p);
    if alias in s.aliases {
      ProcessKeepsTables(s, s.aliases[alias], w.addrB, p, data);
    }
    QueueKeepsInitiator(w, c, s, Rest(s, p, w.addrB, data), made);
  }

  /** The state of the initiator after it accepted an INIT ACK. */
  function Echoed(w: World, s: State, tag: u32, tsn: u32): State {
    s.(waitInitAck := s.waitInitAck - {AliasA(w)}, waitCookieAck := s.waitCookieAck[AliasA(w) := HalfOf(w, tag, tsn)],
       sendImmediate := s.sendImmediate + [EchoEntry(w, tag, tsn)])
  }

  lemma {:induction false} EchoesOnce(w: World, s: State, tag: u32, tsn: u32)
    requires Initiator(w, NotYet, s, []) && Waiting(w, s)
    ensures var t := Echoed(w, s, tag, tsn);
      Initiator(w, Chosen(tag, tsn), t, []) && NewlyMade(s, t) == []
  {}

  lemma {:induction false} AckHandled(w: World, s: State, data: Bytes, tag: u32, tsn: u32)
    requires s.settings == w.settingsA && s.waitInitAck == map[AliasA(w) := WaitInitAck(w.tagA, w.tsnA)]
    requires StartsWith(data, CHUNK_INIT_ACK)
    requires ParseChunk(data)
          == (|data|, Ok(InitAckChunk(AckOf(w, tag, tsn).(cookie := Opaque(PutCookie(CookieOf(w, tag, tsn)))))))
    ensures HandleInitAck(s, AckEntry(w, tag, tsn).1, data, w.addrB).0 == Echoed(w, s, tag, tsn)
  {}

  /** The first INIT ACK decides; later ones change nothing. */
  lemma {:induction false} InitAckAtA(w: World, c: Choice, s: State, made: seq<Made>, tag: u32, tsn: u32, rt: u32,
                                      rs: u32)
    returns (d: Choice)
    requires Initiator(w, c, s, made)
    ensures var (t, panicked) := Receive(s, w.hash, AckEntry(w, tag, tsn).1,
                                         SerializeChunk(InitAckChunk(AckOf(w, tag, tsn))),
                                         w.addrB, rt, rs);
      !panicked && NewlyMade(s, t) == [] && Initiator(w, d, t, made)
    ensures c.Chosen? ==> d == c
  {
    var p, data := AckEntry(w, tag, tsn).1, SerializeChunk(InitAckChunk(AckOf(w, tag, tsn)));
    AckOnWire(w, tag, tsn);
    ReceiveInitAck(s, w.hash, p, data, w.addrB, rt, rs,
                   AckOf(w, tag, tsn).(cookie := Opaque(PutCookie(CookieOf(w, tag, tsn)))));
    if c.NotYet? {
      d := Chosen(tag, tsn);
      AckHandled(w, s, data, tag, tsn);
      EchoesOnce(w, s, tag, tsn);
    } else {
      d := c;
      assert HandleInitAck(s, p, data, w.addrB).0 == s;
      QueueKeepsInitiator(w, c, s, s, made);
    }
  }

  /** The state of the initiator after its first COOKIE ACK. */
  function Completed(w: World, s: State, tag: u32, tsn: u32): State {
    var h := HalfOf(w, tag, tsn);
    MakeNewAssoc(s.(waitCookieAck := s.waitCookieAck - {AliasA(w)}), Header(w.portB, w.portA, w.tagA), h.aliases,
                 h.localTag,
                 h.peerTsn, Min(h.localInStreams, h.peerInStreams), HalfOpenTx(s, h, Header(w.portB, w.portA, w.tagA)))
  }

  lemma {:induction false} CompletesOnce(w: World, c: Choice, s: State)
    requires Initiator(w, c, s, []) && EchoSent(w, c, s)
    ensures var t := Completed(w, s, c.tag, c.tsn);
      && t.assocIdGen == 2 && Initiator(w, c, t, NewlyMade(s, t)) && NewlyMade(s, t) == [MadeByA(w, c.tag, c.tsn)]
      && t.newAssoc.Some? && t.newAssoc.value.id in t.assocInfos
  {}

  lemma {:induction false} NewlyMadeByTables(s: State, t: State, u: State)
    requires SameTables(t, u)
    ensures NewlyMade(s, u) == NewlyMade(s, t)
  {}

  lemma {:induction false} CookieAckAtA(w: World, c: Choice, s: State, made: seq<Made>, tail: Bytes, rt: u32, rs: u32)
    requires Initiator(w, c, s, made) && c.Chosen? && NoAbort(tail)
    ensures var (t, panicked) := Receive(s, w.hash, Header(w.portB, w.portA, w.tagA),
                                         SerializeChunk(StateCookieAck) + tail,
                                         w.addrB, rt, rs);
      !panicked && Initiator(w, c, t, made + NewlyMade(s, t))
  {
    var p, data := Header(w.portB, w.portA, w.tagA), SerializeChunk(StateCookieAck) + tail;
    CookieAckOnWire(tail);
    ReceiveCookieAck(s, w.hash, p, data, w.addrB, rt, rs);
    var (t, result, rest) := HandleCookieAck(s, p, data, w.addrB);
    var u := ProcessChunks(t, result.value, w.addrB, p, rest);
    ProcessKeepsTables(t, result.value, w.addrB, p, rest);
    NewlyMadeByTables(s, t, u);
    if EchoSent(w, c, s) {
      CompletesOnce(w, c, s);
      assert t == Completed(w, s, c.tag, c.tsn);
      QueueKeepsInitiator(w, c, t, u, NewlyMade(s, t));
    } else {
      assert t == s;
      QueueKeepsInitiator(w, c, s, u, made);
    }
  }

  // ----- every step -----

  lemma {:induction false} ResponderWhateverChoice(w: World, c: Choice, d: Choice, s: State, made: seq<Made>)
    requires Responder(w, c, s, made) && (c.Chosen? ==> d == c)
    ensures Responder(w, d, s, made) && (made != [] ==> c.Chosen?)
  {}

  lemma {:induction false} StaysExplained(w: World, c: Choice, d: Choice, open: bool, more: bool, m: Message)
    requires Explained(w, c, open, m) && (c.Chosen? ==> d == c) && (open ==> more)
    ensures Explained(w, d, more, m)
  {}

  lemma {:induction false} ArrivesAtB(w: World, c: Choice, n: Net, m: Message, tag: u32, tsn: u32)
    requires Inv(w, c, n) && m.toB && Explained(w, c, n.madeB != [], m)
    ensures Inv(w, c, Arrive(w, n, m, tag, tsn))
  {
    if m.body == SerializeChunk(Init(InitOf(w))) && m.header == InitEntry(w).1 {
      InitAtB(w, c, n.b, n.madeB, tag, tsn);
    } else {
      EchoAtB(w, c, n.b, n.madeB, tag, tsn);
    }
    var after := Arrive(w, n, m, tag, tsn);
    forall x | x in after.sent ensures Explained(w, c, after.madeB != [], x) {
      StaysExplained(w, c, c, n.madeB != [], after.madeB != [], x);
    }
  }

  lemma {:induction false} InitiatorMoved(w: World, c: Choice, d: Choice, n: Net, a: State, madeA: seq<Made>)
    requires Inv(w, c, n) && (c.Chosen? ==> d == c)
    requires Initiator(w, d, a, madeA) && (madeA != [] ==> n.madeB != [])
    ensures Inv(w, d, n.(a := a, madeA := madeA))
  {
    ResponderWhateverChoice(w, c, d, n.b, n.madeB);
    forall x | x in n.sent ensures Explained(w, d, n.madeB != [], x) {
      StaysExplained(w, c, d, n.madeB != [], n.madeB != [], x);
    }
  }

  lemma {:induction false} ArrivesAtA(w: World, c: Choice, n: Net, m: Message, tag: u32, tsn: u32) returns (d: Choice)
    requires Inv(w, c, n) && !m.toB && Explained(w, c, n.madeB != [], m)
    ensures Inv(w, d, Arrive(w, n, m, tag, tsn))
  {
    var (a, panicked) := Receive(n.a, w.hash, m.header, m.body, w.addrB, tag, tsn);
    d := HandlesExplained(w, c, n.a, n.madeA, n.madeB != [], m, tag, tsn);
    ResponderWhateverChoice(w, c, c, n.b, n.madeB);
    InitiatorMoved(w, c, d, n, a, n.madeA + NewlyMade(n.a, a));
  }

  /** The initiator handles every packet of the handshake; only a COOKIE ACK makes it finish. */
  lemma {:induction false} HandlesExplained(w: World, c: Choice, s: State, made: seq<Made>, open: bool, m: Message,
                                            tag: u32, tsn: u32) returns (d: Choice)
    requires Initiator(w, c, s, made) && !m.toB && Explained(w, c, open, m) && (open ==> c.Chosen?)
    requires made != [] ==> open
    ensures c.Chosen? ==> d == c
    ensures var (t, panicked) := Receive(s, w.hash, m.header, m.body, w.addrB, tag, tsn);
      && !panicked && Initiator(w, d, t, made + NewlyMade(s, t)) && (made + NewlyMade(s, t) != [] ==> open)
  {
    if x: u32, y: u32 :| m.body == SerializeChunk(InitAckChunk(AckOf(w, x, y))) {
      d := InitAckAtA(w, c, s, made, x, y, tag, tsn);
      AppendNothing(made);
    } else {
      d := c;
      var tail :| NoAbort(tail) && m.body == SerializeChunk(StateCookieAck) + tail;
      CookieAckAtA(w, c, s, made, tail, tag, tsn);
    }
  }

  lemma {:induction false} OtherArrives(w: World, c: Choice, n: Net, m: Message)
    requires Inv(w, c, n) && Ordinary(m.body)
    ensures Inv(w, c, Arrive(w, n, m, 0, 0))
  {
    if m.toB {
      OrdinaryAtB(w, c, n.b, n.madeB, m.header, m.body);
    } else {
      OrdinaryAtA(w, c, n.a, n.madeA, m.header, m.body);
    }
  }

  lemma {:induction false} SendsFromA(w: World, c: Choice, n: Net)
    requires Inv(w, c, n) && n.a.sendImmediate != []
    ensures Inv(w, c, n.(a := PopFront(n.a), sent := n.sent + Emitted(true, n.a.sendImmediate)))
  {
    var e := n.a.sendImmediate[0];
    assert e in n.a.sendImmediate;
    QueueKeepsInitiator(w, c, n.a, PopFront(n.a), n.madeA);
  }

  lemma {:induction false} SendsFromB(w: World, c: Choice, n: Net)
    requires Inv(w, c, n) && n.b.sendImmediate != []
    ensures Inv(w, c, n.(b := PopFront(n.b), sent := n.sent + Emitted(false, n.b.sendImmediate)))
  {
    var e := n.b.sendImmediate[0];
    assert e in n.b.sendImmediate;
    QueueKeepsResponder(w, c, n.b, PopFront(n.b), n.madeB);
  }

  lemma {:induction false} SendsCookieAck(w: World, c: Choice, n: Net, id: nat, tail: Bytes)
    requires Inv(w, c, n) && NoAbort(tail)
    requires exists i :: 0 <= i < |n.b.txNotes| && n.b.txNotes[i] == (id, Send(StateCookieAck))
    ensures Inv(w, c, n.(sent := n.sent + {AckPacket(w, n, id, tail)}))
  {
    assert OpenB(w, c, n.b) && id == 2;
  }

  lemma {:induction false} InvStep(w: World, c: Choice, n: Net, act: Action) returns (d: Choice)
    requires Inv(w, c, n) && CanHappen(w, n, act)
    ensures Inv(w, d, Do(w, n, act))
  {
    d := c;
    match act
    case SendImmediate(atA) =>
      if atA {
        SendsFromA(w, c, n);
      } else {
        SendsFromB(w, c, n);
      }
    case SendCookieAck(id, tail) => SendsCookieAck(w, c, n, id, tail);
    case Deliver(m, tag, tsn) =>
      if m.toB {
        ArrivesAtB(w, c, n, m, tag, tsn);
      } else {
        d := ArrivesAtA(w, c, n, m, tag, tsn);
      }
    case Other(m) => OtherArrives(w, c, n, m);
  }

  lemma {:induction false} InvAlways(w: World, acts: seq<Action>) returns (c: Choice)
    ensures Inv(w, c, Run(w, acts))
  {
    if acts == [] {
      c := NotYet;
    } else {
      c := InvAlways(w, acts[..|acts| - 1]);
      var n, act := Run(w, acts[..|acts| - 1]), acts[|acts| - 1];
      if CanHappen(w, n, act) {
        c := InvStep(w, c, n, act);
      }
    }
  }

  // ----- agreement -----

  /** Both ends of an association know the same tags, TSNs and receive windows. */
  ghost predicate Agree(w: World, a: Made, b: Made) {
    && a.info.localTag == b.info.peerTag && a.info.peerTag == b.info.localTag
    && a.assoc.tx.peerTag == b.info.localTag && b.assoc.tx.peerTag == a.info.localTag
    && a.assoc.tx.assoc.initTsn == b.assoc.peerTsn && b.assoc.tx.assoc.initTsn == a.assoc.peerTsn
    && a.assoc.tx.assoc.peerArwnd == b.assoc.inBufferLimit % TWO32
    && b.assoc.tx.assoc.peerArwnd == a.assoc.inBufferLimit % TWO32
    && (a.assoc.tx.localPort, a.assoc.tx.peerPort) == (b.assoc.tx.peerPort, b.assoc.tx.localPort)
    && a.assoc.tx.assoc.primaryPath == w.addrB && b.assoc.tx.assoc.primaryPath == w.addrA
  }

  /** Handshake agreement: whatever is lost, repeated or reordered, and whatever answers the responder gave to repeated
      INITs, each side makes at most one association, the initiator's comes after the responder's, both agree,
      and no packet makes an endpoint panic. */
  lemma {:induction false} HandshakeAgrees(w: World, acts: seq<Action>)
    ensures var n := Run(w, acts);
      && |n.madeA| <= 1 && |n.madeB| <= 1 && !n.panicked
      && (n.madeA != [] ==> n.madeB != [] && Agree(w, n.madeA[0], n.madeB[0]))
  {
    var c := InvAlways(w, acts);
    InvMeansAgreement(w, c, Run(w, acts));
  }

  lemma {:induction false} InvMeansAgreement(w: World, c: Choice, n: Net)
    requires Inv(w, c, n)
    ensures |n.madeA| <= 1 && |n.madeB| <= 1 && !n.panicked
    ensures n.madeA != [] ==> n.madeB != [] && Agree(w, n.madeA[0], n.madeB[0])
    ensures n.madeA != [] ==> n.madeA == [MadeByA(w, c.tag, c.tsn)] && n.madeB == [MadeByB(w, c.tag, c.tsn)]
  {}

  /** The two directions of a finished handshake are pairs for which delivery and flow control were proved, exactly if
      no side sends on more streams than the other one accepts. */
  lemma {:induction false} HandshakeStartsCompatiblePairs(w: World, acts: seq<Action>)
    requires w.settingsA.inBufferLimit < TWO32 && w.settingsB.inBufferLimit < TWO32
    requires w.settingsA.outBufferLimit < TWO32 && w.settingsB.outBufferLimit < TWO32
    ensures var n := Run(w, acts);
      n.madeA != [] && n.madeB != [] ==>
        var a, b := n.madeA[0].assoc, n.madeB[0].assoc;
        var streams := Min(w.settingsA.outgoingStreams, w.settingsB.outgoingStreams);
        && a.tx.assoc.initTsn == b.peerTsn && b.tx.assoc.initTsn == a.peerTsn
        && (AS.Compatible(a.tx.assoc, b.inStreams, b.inBufferLimit) <==> streams <= w.settingsB.incomingStreams)
        && (AS.Compatible(b.tx.assoc, a.inStreams, a.inBufferLimit)
            <==> streams <= w.settingsA.incomingStreams && streams <= w.settingsB.incomingStreams)
  {
    var c := InvAlways(w, acts);
    InvMeansAgreement(w, c, Run(w, acts));
  }
}
