/** Two endpoint objects that carry out a handshake, packet by packet. */
module HandshakeDriver {
  import opened Basics
  import opened Chunks
  import opened Endpoint
  import opened Handshake
  import opened HandshakeAgreement
  import opened HandshakeCompletion
  import opened HandshakeSteps
  import opened SctpEndpoint
  import opened Wire

  /** The INIT goes to the responder, and its answer is returned. */
  method Answer(w: World, tag: u32, tsn: u32, b: Sctp, init: (TransportAddress, Header, Chunk))
    returns (ack: (TransportAddress, Header, Chunk))
    requires init == InitEntry(w) && b.Valid() && b.State() == New(w.settingsB) && b.hash == w.hash
    modifies b
    ensures b.Valid() && b.State() == New(w.settingsB) && ack == AckEntry(w, tag, tsn)
  {
    ghost var data := SerializeChunk(Init(InitOf(w)));
    InitOnWire(w);
    ReceiveInit(b.State(), w.hash, InitEntry(w).1, data, w.addrA, tag, tsn, InitOf(w));
    AnswerIsAckEntry(w, b.State(), tag, tsn);
    var _ := b.ReceiveData(init.1, SerializeChunk(init.2), w.addrA, tag, tsn);
    AppendNothing([AckEntry(w, tag, tsn)]);
    assert b.State() == New(w.settingsB).(sendImmediate := [AckEntry(w, tag, tsn)]);
    var next := b.NextSendImmediate();
    ack := next.value;
  }

  lemma {:induction false} EchoIsQueued(w: World, tag: u32, tsn: u32)
    ensures Echoed(w, AfterInit(w), tag, tsn).sendImmediate == [EchoEntry(w, tag, tsn)]
    ensures AfterEcho(w, tag, tsn) == Echoed(w, AfterInit(w), tag, tsn).(sendImmediate := [])
  {}

  /** The INIT ACK goes to the initiator, and its COOKIE ECHO is returned. */
  method Echo(w: World, tag: u32, tsn: u32, a: Sctp, ack: (TransportAddress, Header, Chunk))
    returns (echo: (TransportAddress, Header, Chunk))
    requires ack == AckEntry(w, tag, tsn) && a.Valid() && a.State() == AfterInit(w) && a.hash == w.hash
    modifies a
    ensures a.Valid() && a.State() == AfterEcho(w, tag, tsn) && echo == EchoEntry(w, tag, tsn)
  {
    AckReceived(w, a.State(), tag, tsn);
    EchoIsQueued(w, tag, tsn);
    var _ := a.ReceiveData(ack.1, SerializeChunk(ack.2), w.addrB, 0, 0);
    var next := a.NextSendImmediate();
    echo := next.value;
  }

  /** The COOKIE ECHO goes to the responder, which makes its association. */
  method Accept(w: World, tag: u32, tsn: u32, b: Sctp, echo: (TransportAddress, Header, Chunk))
    requires echo == EchoEntry(w, tag, tsn) && b.Valid() && b.State() == New(w.settingsB) && b.hash == w.hash
    modifies b
    ensures b.Valid() && b.newAssoc == Some(MadeByB(w, tag, tsn).assoc)
  {
    EchoReceived(w, b.State(), tag, tsn);
    OpensOnce(w, Chosen(tag, tsn), b.State(), []);
    var _ := b.ReceiveData(echo.1, SerializeChunk(echo.2), w.addrA, 0, 0);
  }

  /** Both endpoints end up with the associations that the other one expects. */
  method Connect(w: World, tag: u32, tsn: u32) returns (a: Sctp, b: Sctp)
    ensures a.Valid() && b.Valid()
    ensures a.newAssoc == Some(MadeByA(w, tag, tsn).assoc) && b.newAssoc == Some(MadeByB(w, tag, tsn).assoc)
    ensures Agree(w, MadeByA(w, tag, tsn), MadeByB(w, tag, tsn))
  {
    a := new Sctp(w.settingsA, w.hash);
    b := new Sctp(w.settingsB, w.hash);
    a.InitAssociation(w.addrB, w.portB, w.portA, w.tagA, w.tsnA);
    assert a.State() == Start(w).a;
    var init := a.NextSendImmediate();
    assert a.State() == AfterInit(w) && init.value == InitEntry(w);
    var ack := Answer(w, tag, tsn, b, init.value);
    var echo := Echo(w, tag, tsn, a, ack);
    Accept(w, tag, tsn, b, echo);
    Finish(w, tag, tsn, a);
  }

  /** The COOKIE ACK goes to the initiator. */
  method Finish(w: World, tag: u32, tsn: u32, a: Sctp)
    requires a.Valid() && a.State() == AfterEcho(w, tag, tsn) && a.hash == w.hash
    modifies a
    ensures a.Valid() && a.newAssoc == Some(MadeByA(w, tag, tsn).assoc)
  {
    var p, data := Header(w.portB, w.portA, w.tagA), SerializeChunk(StateCookieAck) + [];
    EchoSentAfterEcho(w, tag, tsn);
    CookieAckOnWire([]);
    ReceiveCookieAck(a.State(), w.hash, p, data, w.addrB, 0, 0);
    ghost var (t, result, rest) := HandleCookieAck(a.State(), p, data, w.addrB);
    ProcessNothing(t, result.value, w.addrB, p);
    CompletesOnce(w, Chosen(tag, tsn), a.State());
    assert t == Completed(w, a.State(), tag, tsn);
    var _ := a.ReceiveData(p, data, w.addrB, 0, 0);
  }
}
