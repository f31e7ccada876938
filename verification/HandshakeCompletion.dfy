/** A handshake whose four packets arrive makes both associations. */
module HandshakeCompletion {
  import opened Basics
  import opened Chunks
  import opened Wire
  import opened Endpoint
  import opened Handshake
  import opened HandshakeSteps
  import opened HandshakeAgreement

  function InitPacket(w: World): Message { Message(true, InitEntry(w).1, SerializeChunk(InitEntry(w).2)) }

  function InitAckPacket(w: World, tag: u32, tsn: u32): Message {
    Message(false, AckEntry(w, tag, tsn).1, SerializeChunk(AckEntry(w, tag, tsn).2))
  }

  function EchoPacket(w: World, tag: u32, tsn: u32): Message {
    Message(true, EchoEntry(w, tag, tsn).1, SerializeChunk(EchoEntry(w, tag, tsn).2))
  }

  function CookieAckPacket(w: World): Message {
    Message(false, Header(w.portB, w.portA, w.tagA), SerializeChunk(StateCookieAck) + [])
  }

  ghost predicate Reachable(w: World, n: Net) { exists acts :: Run(w, acts) == n }

  lemma {:induction false} ReachMore(w: World, n: Net, act: Action, m: Net)
    requires Reachable(w, n) && CanHappen(w, n, act) && Do(w, n, act) == m
    ensures Reachable(w, m)
  {
    var acts :| Run(w, acts) == n;
    assert (acts + [act])[..|acts|] == acts;
    assert Run(w, acts + [act]) == m;
  }

  lemma {:induction false} InitIsAnswered(w: World, n: Net, tag: u32, tsn: u32)
    requires n.b == New(w.settingsB) && n.madeB == [] && !n.panicked
    ensures Do(w, n, Deliver(InitPacket(w), tag, tsn)) == n.(b := n.b.(sendImmediate := [AckEntry(w, tag, tsn)]))
  {
    InitOnWire(w);
    ReceiveInit(n.b, w.hash, InitEntry(w).1, SerializeChunk(Init(InitOf(w))), w.addrA, tag, tsn, InitOf(w));
    AnswerIsAckEntry(w, n.b, tag, tsn);
  }

  lemma {:induction false} AckReceived(w: World, s: State, tag: u32, tsn: u32)
    requires s.settings == w.settingsA && s.waitInitAck == map[AliasA(w) := WaitInitAck(w.tagA, w.tsnA)]
    ensures Receive(s, w.hash, AckEntry(w, tag, tsn).1, SerializeChunk(InitAckChunk(AckOf(w, tag, tsn))), w.addrB, 0, 0)
         == (Echoed(w, s, tag, tsn), false)
  {
    var data := SerializeChunk(InitAckChunk(AckOf(w, tag, tsn)));
    var ack := AckOf(w, tag, tsn).(cookie := Opaque(PutCookie(CookieOf(w, tag, tsn))));
    AckOnWire(w, tag, tsn);
    ReceiveInitAck(s, w.hash, AckEntry(w, tag, tsn).1, data, w.addrB, 0, 0, ack);
    AckHandled(w, s, data, tag, tsn);
  }

  lemma {:induction false} AckIsEchoed(w: World, n: Net, tag: u32, tsn: u32)
    requires n.a == PopFront(Start(w).a) && n.madeA == [] && !n.panicked
    ensures Do(w, n, Deliver(InitAckPacket(w, tag, tsn), 0, 0)) == n.(a := Echoed(w, n.a, tag, tsn))
  {
    AckReceived(w, n.a, tag, tsn);
  }

  lemma {:induction false} EchoReceived(w: World, s: State, tag: u32, tsn: u32)
    requires s == New(w.settingsB)
    ensures Receive(s, w.hash, EchoEntry(w, tag, tsn).1, SerializeChunk(EchoOf(w, tag, tsn)), w.addrA, 0, 0)
         == (Opened(w, s, tag, tsn), false)
  {
    var data := SerializeChunk(EchoOf(w, tag, tsn));
    EchoOnWire(w, tag, tsn);
    EchoHandled(w, s, data, tag, tsn);
    ReceiveEcho(s, w.hash, EchoEntry(w, tag, tsn).1, data, w.addrA, 0, 0, EchoOf(w, tag, tsn).cookie,
                CookieOf(w, tag, tsn));
  }

  lemma {:induction false} EchoOpens(w: World, n: Net, tag: u32, tsn: u32)
    requires n.b == New(w.settingsB) && n.madeB == [] && !n.panicked
    ensures var t := Opened(w, n.b, tag, tsn);
      && Do(w, n, Deliver(EchoPacket(w, tag, tsn), 0, 0)) == n.(b := t, madeB := [MadeByB(w, tag, tsn)])
      && t.txNotes == [(2, Send(StateCookieAck))] && 2 in t.assocInfos && t.assocInfos[2].peerTag == w.tagA
  {
    EchoReceived(w, n.b, tag, tsn);
    OpensOnce(w, Chosen(tag, tsn), n.b, []);
  }

  lemma {:induction false} CookieAckCompletes(w: World, n: Net, tag: u32, tsn: u32)
    requires Initiator(w, Chosen(tag, tsn), n.a, []) && EchoSent(w, Chosen(tag, tsn), n.a) && n.madeA == []
    ensures Do(w, n, Deliver(CookieAckPacket(w), 0, 0)).madeA == [MadeByA(w, tag, tsn)]
  {
    var p, data := Header(w.portB, w.portA, w.tagA), SerializeChunk(StateCookieAck) + [];
    CookieAckOnWire([]);
    ReceiveCookieAck(n.a, w.hash, p, data, w.addrB, 0, 0);
    var (t, result, rest) := HandleCookieAck(n.a, p, data, w.addrB);
    ProcessNothing(t, result.value, w.addrB, p);
    CompletesOnce(w, Chosen(tag, tsn), n.a);
    assert t == Completed(w, n.a, tag, tsn);
  }

  // ----- the four packets, one after the other -----

  function AfterInit(w: World): State { PopFront(Start(w).a) }

  function AfterEcho(w: World, tag: u32, tsn: u32): State { PopFront(Echoed(w, AfterInit(w), tag, tsn)) }

  /** Nothing is made yet, and these are the two endpoints. */
  predicate Early(n: Net, a: State, b: State) { n.a == a && n.b == b && n.madeA == [] && n.madeB == [] && !n.panicked }

  lemma {:induction false} InitSent(w: World) returns (n: Net)
    ensures Reachable(w, n) && Early(n, AfterInit(w), New(w.settingsB)) && InitPacket(w) in n.sent
  {
    assert Run(w, []) == Start(w);
    n := Do(w, Start(w), SendImmediate(true));
    ReachMore(w, Start(w), SendImmediate(true), n);
  }

  lemma {:induction false} InitArrived(w: World, tag: u32, tsn: u32) returns (n: Net)
    ensures Reachable(w, n) && Early(n, AfterInit(w), New(w.settingsB).(sendImmediate := [AckEntry(w, tag, tsn)]))
  {
    var before := InitSent(w);
    InitIsAnswered(w, before, tag, tsn);
    n := before.(b := before.b.(sendImmediate := [AckEntry(w, tag, tsn)]));
    ReachMore(w, before, Deliver(InitPacket(w), tag, tsn), n);
  }

  lemma {:induction false} InitAckSent(w: World, tag: u32, tsn: u32) returns (n: Net)
    ensures Reachable(w, n) && Early(n, AfterInit(w), New(w.settingsB)) && InitAckPacket(w, tag, tsn) in n.sent
  {
    var before := InitArrived(w, tag, tsn);
    n := before.(b := New(w.settingsB), sent := before.sent + {InitAckPacket(w, tag, tsn)});
    ReachMore(w, before, SendImmediate(false), n);
  }

  lemma {:induction false} InitAckArrived(w: World, tag: u32, tsn: u32) returns (n: Net)
    ensures Reachable(w, n) && Early(n, Echoed(w, AfterInit(w), tag, tsn), New(w.settingsB))
  {
    var before := InitAckSent(w, tag, tsn);
    AckIsEchoed(w, before, tag, tsn);
    n := before.(a := Echoed(w, before.a, tag, tsn));
    ReachMore(w, before, Deliver(InitAckPacket(w, tag, tsn), 0, 0), n);
  }

  lemma {:induction false} CookieEchoSent(w: World, tag: u32, tsn: u32) returns (n: Net)
    ensures Reachable(w, n) && Early(n, AfterEcho(w, tag, tsn), New(w.settingsB)) && EchoPacket(w, tag, tsn) in n.sent
  {
    var before := InitAckArrived(w, tag, tsn);
    assert before.a.sendImmediate == [EchoEntry(w, tag, tsn)];
    n := before.(a := AfterEcho(w, tag, tsn), sent := before.sent + {EchoPacket(w, tag, tsn)});
    ReachMore(w, before, SendImmediate(true), n);
  }

  lemma {:induction false} CookieEchoArrived(w: World, tag: u32, tsn: u32) returns (n: Net)
    ensures Reachable(w, n) && n.a == AfterEcho(w, tag, tsn) && n.madeA == [] && n.madeB == [MadeByB(w, tag, tsn)]
    ensures n.b.txNotes == [(2, Send(StateCookieAck))] && 2 in n.b.assocInfos && n.b.assocInfos[2].peerTag == w.tagA
  {
    var before := CookieEchoSent(w, tag, tsn);
    EchoOpens(w, before, tag, tsn);
    n := before.(b := Opened(w, before.b, tag, tsn), madeB := [MadeByB(w, tag, tsn)]);
    ReachMore(w, before, Deliver(EchoPacket(w, tag, tsn), 0, 0), n);
  }

  lemma {:induction false} CookieAckSent(w: World, tag: u32, tsn: u32) returns (n: Net)
    ensures Reachable(w, n) && n.a == AfterEcho(w, tag, tsn) && n.madeA == [] && n.madeB == [MadeByB(w, tag, tsn)]
    ensures CookieAckPacket(w) in n.sent
  {
    var before := CookieEchoArrived(w, tag, tsn);
    assert before.b.txNotes[0] == (2, Send(StateCookieAck));
    assert NoAbort([]) by { assert Scan([]) == []; }
    n := before.(sent := before.sent + {CookieAckPacket(w)});
    ReachMore(w, before, SendCookieAck(2, []), n);
  }

  /** The handshake completes if the network delivers: for all addresses, settings and random numbers there is a
      run in which both associations exist, with exactly the values of `MadeByA` and `MadeByB`. */
  lemma {:induction false} HandshakeCanComplete(w: World, tag: u32, tsn: u32)
    ensures exists n :: Reachable(w, n) && n.madeA == [MadeByA(w, tag, tsn)] && n.madeB == [MadeByB(w, tag, tsn)]
  {
    var before := CookieAckSent(w, tag, tsn);
    EchoSentAfterEcho(w, tag, tsn);
    CookieAckCompletes(w, before, tag, tsn);
    var n := Do(w, before, Deliver(CookieAckPacket(w), 0, 0));
    ReachMore(w, before, Deliver(CookieAckPacket(w), 0, 0), n);
  }

  lemma {:induction false} EchoSentAfterEcho(w: World, tag: u32, tsn: u32)
    ensures var a := AfterEcho(w, tag, tsn);
      EchoSent(w, Chosen(tag, tsn), a) && Initiator(w, Chosen(tag, tsn), a, [])
  {
    assert Echoed(w, AfterInit(w), tag, tsn).sendImmediate == [EchoEntry(w, tag, tsn)];
  }
}
