/** From the first INIT to the last message: what the handshake and the data transfer guarantee together. */
module EndToEnd {
  import opened Basics
  import opened Messages
  import opened Endpoint
  import H = Handshake
  import HA = HandshakeAgreement
  import A = Association
  import AS = AssociationSafety
  import RxModel
  import W = WireChannel

  /** The sender of one association and the receiver of the other. */
  function Direction(from: NewAssoc, to: NewAssoc, now: nat): A.Pair {
    A.NewPair(from.tx.assoc, to.inStreams, to.inBufferLimit, now)
  }

  /** What is guaranteed in one direction, whatever the channel does. */
  ghost predicate Guaranteed(p: A.Pair, init: u32) {
    p.ordered <= Select(p.accepted, false) && p.unordered <= Select(p.accepted, true) && AS.NothingLost(p, init)
  }

  /** The guarantees hold for the run, and also when every chunk and SACK of it goes over the wire as bytes. */
  ghost predicate Delivers(from: NewAssoc, to: NewAssoc, now: nat, actions: seq<A.Action>) {
    var p := Direction(from, to, now);
    && Guaranteed(A.RunPair(p, actions), from.tx.assoc.initTsn)
    && (W.ShortRun(p, actions) ==> Guaranteed(W.RunOnWire(p, actions), from.tx.assoc.initTsn))
  }

  lemma {:induction false} CompatibleDelivers(from: NewAssoc, to: NewAssoc, now: nat, actions: seq<A.Action>)
    requires AS.Compatible(from.tx.assoc, to.inStreams, to.inBufferLimit)
    ensures Delivers(from, to, now, actions)
  {
    AS.PrefixDelivery(from.tx.assoc, to.inStreams, to.inBufferLimit, now, actions);
    AS.NothingFreedEarly(from.tx.assoc, to.inStreams, to.inBufferLimit, now, actions);
    if W.ShortRun(Direction(from, to, now), actions) {
      W.WireIsTransparent(from.tx.assoc, to.inStreams, to.inBufferLimit, now, actions);
    }
  }

  /** After every handshake, whatever the network did to it, both directions deliver a prefix of what was accepted and
      lose nothing, whatever the channel does to them; and the receiver in each direction is the one that the
      handshake made. All of it holds for the bytes on the wire, while path MTU and SACKs fit 16-bit lengths. */
  lemma {:induction false} HandshakeThenDelivery(w: H.World, acts: seq<H.Action>, now: nat,
                                                 there: seq<A.Action>, back: seq<A.Action>)
    requires w.settingsA.inBufferLimit < TWO32 && w.settingsB.inBufferLimit < TWO32
    requires w.settingsA.outBufferLimit < TWO32 && w.settingsB.outBufferLimit < TWO32
    requires Min(w.settingsA.outgoingStreams, w.settingsB.outgoingStreams)
          <= Min(w.settingsA.incomingStreams, w.settingsB.incomingStreams)
    requires H.Run(w, acts).madeA != []
    ensures var n := H.Run(w, acts);
      && n.madeB != []
      && var a, b := n.madeA[0].assoc, n.madeB[0].assoc;
        && Delivers(a, b, now, there) && Delivers(b, a, now, back)
        && Direction(a, b, now).rx == RxModel.NewRx(b.peerTsn, b.inStreams, b.inBufferLimit)
        && Direction(b, a, now).rx == RxModel.NewRx(a.peerTsn, a.inStreams, a.inBufferLimit)
  {
    HA.HandshakeAgrees(w, acts);
    HA.HandshakeStartsCompatiblePairs(w, acts);
    var a, b := H.Run(w, acts).madeA[0].assoc, H.Run(w, acts).madeB[0].assoc;
    CompatibleDelivers(a, b, now, there);
    CompatibleDelivers(b, a, now, back);
  }
}
