/**
 The remaining steps of the two-party session keep its invariant: deliveries, the handshake
 exchanges, adoption of a socket by a session, new sockets and cuts.
 */
module SessionSteps {
  import opened Wrappers
  import opened SendQueue
  import opened Endpoints
  import opened N = Negotiation
  import opened Session
  import opened SessionSafety

  // ---------------------------------------------------------------- deliveries

  lemma DeliverFacts(e: Endpoint, id: nat, k: nat)
    requires SenderOk(e) && Owned(e) && e.phase.Open?
    ensures SenderOk(Deliver(e, id, k)) && Owned(Deliver(e, id, k))
  {
    hide Window, Queued, Ids;
  }

  /** The next data packet carries the next number, so it is dispatched and never taken for an old one. */
  lemma ReceiveDataFits(e: Endpoint, f: Endpoint, p: Side, i: nat, w: Wire, id: nat, k: nat)
    requires Fits(e, e, f, p, i, w) && e.wire == Some(i) && e.phase.Open?
    requires In(w, p).q != [] && In(w, p).q[0] == Data(id, k)
    ensures k == e.inSeq + 1
    ensures Fits(e, Deliver(e, id, k), f, p, i, Exchange(w, p, []))
  {
    hide SenderOk, Owned, Chain, DataCount, Exchange;
    DeliverFacts(e, id, k);
    ExchangeChannels(w, p, []);
    PopChain(In(w, p).q, e.inSeq);
    assert FromSender(Data(id, k), f.log);
    assert f.log[..e.inSeq] + [id] == f.log[..k];
    assert w.stage == 3;
  }

  lemma ReceiveTrafficKeepsInv(s: State, p: Side)
    requires Inv(s) && Enabled(s, Receive(p)) && Ep(s, p).phase.Open?
    ensures Inv(Step(s, Receive(p)))
  {
    hide SenderOk, Owned, Direction, Shape, HandshakeOk, Fits, Deliver, HandleAck, Exchange, DecisionAt;
    var e, f := Ep(s, p), Ep(s, Other(p));
    var i := e.wire.value;
    var w := s.wires[i];
    InvAt(s, p, i);
    ExchangeChannels(w, p, []);
    match In(w, p).q[0] {
      case Data(id, k) =>
        ReceiveDataFits(e, f, p, i, w, id, k);
        WireStep(s, p, Deliver(e, id, k), i, Exchange(w, p, []));
      case Ack(n) =>
        ReceiveAckFits(e, f, p, i, w, n);
        WireStep(s, p, HandleAck(e, n), i, Exchange(w, p, []));
    }
  }

  // ---------------------------------------------------------------- the exchange of numbers

  lemma DiscardedAreLogged(e: Endpoint, n: nat)
    requires Window(e.outQ, [], e.outSeq, e.log) && n <= |e.log|
    ensures var l := ListAt(e.outQ, HIGHEST);
            var k := DiscardCount(l, n);
            e.outSeq + k <= |e.log| && IdList(l[..k]) == e.log[e.outSeq..e.outSeq + k]
  {
    var l := ListAt(e.outQ, HIGHEST);
    var k := DiscardCount(l, n);
    DiscardCountOf(l, e.log, e.outSeq, n);
    hide DiscardCount;
    assert l[..k] == l[..Replays(e.outSeq, e.log)][..k] == Numbered(e.log, e.outSeq, e.outSeq + k);
    IdsOfNumbered(e.log, e.outSeq, e.outSeq + k);
  }

  /** What the exchange of numbers leaves alone. */
  ghost predicate SameButQueue(e: Endpoint, e2: Endpoint) {
    && e2.wire == e.wire && e2.log == e.log && e2.inSeq == e.inSeq && e2.dispatched == e.dispatched
    && e2.sent == e.sent && e2.connectSeq == e.connectSeq && e2.ackLeft == e.ackLeft
  }

  lemma DiscardKeepsFinished(e: Endpoint, n: nat)
    requires Window(e.outQ, [], e.outSeq, e.log) && n <= |e.log| && e.finished == e.log[..e.outSeq]
    ensures var e2 := DiscardRequeuedUpTo(e, n);
            e2.outSeq <= |e.log| && e2.finished == e.log[..e2.outSeq]
  {
    DiscardedAreLogged(e, n);
    hide Window, Discard, DiscardCount, IdList, Ids;
    var k := DiscardCount(ListAt(e.outQ, HIGHEST), n);
    assert e.log[..e.outSeq] + e.log[e.outSeq..e.outSeq + k] == e.log[..e.outSeq + k];
  }

  /** Discarding up to the peer's number moves the acknowledged front there. */
  lemma DiscardKeepsSenderOk(e: Endpoint, n: nat, ph: Phase)
    requires SenderOk(e) && e.sent == [] && !e.replacing && n <= |e.log|
    requires ph.ConnectReady? || (ph.Open? && e.connectSeq > 0)
    ensures var e2 := DiscardRequeuedUpTo(e, n).(phase := ph);
            SenderOk(e2) && e2.outSeq == if n <= e.outSeq then e.outSeq else n
  {
    hide Discard, DiscardCount, Ids, IdList, ListAt, Numbered, NoEmptyList, AtMostHighest;
    DiscardKeepsWindow(e.outQ, e.outSeq, e.log, n);
    DiscardKeepsFinished(e, n);
  }

  lemma DiscardFacts(e: Endpoint, n: nat, ph: Phase)
    requires SenderOk(e) && Owned(e) && e.sent == [] && !e.replacing && n <= |e.log|
    requires ph.ConnectReady? || (ph.Open? && e.connectSeq > 0)
    ensures var e2 := DiscardRequeuedUpTo(e, n).(phase := ph);
            && SenderOk(e2) && Owned(e2) && SameButQueue(e, e2)
            && e2.outSeq == if n <= e.outSeq then e.outSeq else n
  {
    DiscardKeepsSenderOk(e, n, ph);
    DiscardKeepsOwned(e, n);
    hide SenderOk, Discard, DiscardCount, Queued, Ids;
  }

  lemma LinkNumber(e: Endpoint, f: Endpoint, w: Wire, p: Side, pk: Packet)
    requires Link(e, f, w, p) && pk in In(w, p).q && pk.InSeq?
    ensures pk.n == f.inSeq
  {
  }

  lemma NoDataLink(e: Endpoint, f: Endpoint, w: Wire, p: Side)
    requires forall pk | pk in Out(w, p).q :: !pk.Data?
    requires forall pk | pk in In(w, p).q && pk.InSeq? :: pk.n == f.inSeq
    requires e.wire == f.wire && Synced(e) ==>
               e.sent == [] && f.inSeq == e.outSeq && forall pk | pk in In(w, p).q :: FromReceiver(pk, f.inSeq)
    ensures Link(e, f, w, p)
  {
    NoDataChain(Out(w, p).q, f.inSeq);
    if e.wire == f.wire && Synced(e) {
      AckedWithin(In(w, p).q, e.outSeq, f.inSeq);
    }
  }

  /** The connector reads the acceptor's number and answers with its own. */
  lemma ConnectorReadsSeqFits(e: Endpoint, e2: Endpoint, f: Endpoint, p: Side, i: nat, w: Wire, w2: Wire, n: nat)
    requires Fits(e, e, f, p, i, w) && e.wire == Some(i) && e.phase.WaitAckSeq? && e.sent == []
    requires In(w, p).q != [] && In(w, p).q[0] == InSeq(n)
    requires SenderOk(e2) && Owned(e2) && SameButQueue(e, e2)
    requires e2.phase == ConnectReady(e.phase.connectSeq, e.phase.globalSeq)
    requires e2.outSeq == if n <= e.outSeq then e.outSeq else n
    requires w2.connector == w.connector && w2.stage == 2 && w2.adopted == w.adopted
    requires In(w2, p).q == In(w, p).q[1..] && Out(w2, p) == Push(Out(w, p), [InSeq(e.inSeq)])
    ensures Fits(e, e2, f, p, i, w2)
  {
    hide SenderOk, Owned, Link;
    assert p == w.connector && w.stage == 1;
    assert FromReceiver(InSeq(n), f.inSeq);
    assert In(w2, p).q == [] && In(w, Other(p)).q == [];
    NoDataLink(f, e2, w2, Other(p));
    if f.wire == Some(i) {
      LinkNumber(e, f, w, p, InSeq(n));
      NoDataLink(e2, f, w2, p);
    }
  }

  /** The acceptor reads the connector's number and is open. */
  lemma AcceptorReadsSeqFits(e: Endpoint, e2: Endpoint, f: Endpoint, p: Side, i: nat, w: Wire, w2: Wire, n: nat)
    requires Fits(e, e, f, p, i, w) && e.wire == Some(i) && e.phase.AcceptWaitSeq? && e.sent == []
    requires In(w, p).q != [] && In(w, p).q[0] == InSeq(n)
    requires SenderOk(e2) && Owned(e2) && SameButQueue(e, e2) && e2.phase.Open?
    requires e2.outSeq == if n <= e.outSeq then e.outSeq else n
    requires w2.connector == w.connector && w2.stage == 3 && w2.adopted == w.adopted
    requires In(w2, p) == Channel(In(w, p).q[1..], In(w, p).alive) && Out(w2, p) == Out(w, p)
    ensures Fits(e, e2, f, p, i, w2)
  {
    hide SenderOk, Owned, Chain, DataCount;
    assert p != w.connector && w.stage == 2;
    assert FromReceiver(InSeq(n), f.inSeq);
    PopChain(In(w, p).q, e.inSeq);
    if f.wire == Some(i) {
      NoDataLink(e2, f, w2, p);
    }
  }

  lemma IdleHandshake(e: Endpoint)
    requires SenderOk(e) && (e.phase.WaitAckSeq? || e.phase.AcceptWaitSeq?)
    ensures e.sent == [] && !e.replacing && (e.phase.AcceptWaitSeq? ==> e.connectSeq > 0)
  {
  }

  lemma ReadNumberBound(e: Endpoint, f: Endpoint, p: Side, i: nat, w: Wire, n: nat)
    requires Fits(e, e, f, p, i, w) && InSeq(n) in In(w, p).q
    ensures n <= f.inSeq <= |e.log|
  {
    hide SenderOk, Owned, Link, Shape, PhaseOnWire, NumbersOnWire;
    assert FromReceiver(InSeq(n), f.inSeq);
  }

  lemma ReceiveInSeqKeepsInv(s: State, p: Side)
    requires Inv(s) && Enabled(s, Receive(p))
    requires In(s.wires[Ep(s, p).wire.value], p).q[0].InSeq?
    ensures Inv(Step(s, Receive(p)))
  {
    hide SenderOk, Owned, Direction, Shape, HandshakeOk, Fits, Exchange, DiscardRequeuedUpTo, SameButQueue,
         DecisionAt, NextOutgoing;
    var e, f := Ep(s, p), Ep(s, Other(p));
    var i := e.wire.value;
    var w := s.wires[i];
    var n := In(w, p).q[0].n;
    assert SideOk(s, p);
    InvAt(s, p, i);
    IdleHandshake(e);
    ReadNumberBound(e, f, p, i, w, n);
    if e.phase.WaitAckSeq? {
      var ph := ConnectReady(e.phase.connectSeq, e.phase.globalSeq);
      var w2 := Exchange(w, p, [InSeq(e.inSeq)]).(stage := 2);
      DiscardFacts(e, n, ph);
      ExchangeChannels(w, p, [InSeq(e.inSeq)]);
      ConnectorReadsSeqFits(e, DiscardRequeuedUpTo(e, n).(phase := ph), f, p, i, w, w2, n);
      WireStep(s, p, DiscardRequeuedUpTo(e, n).(phase := ph), i, w2);
    } else {
      var w2 := Exchange(w, p, []).(stage := 3);
      DiscardFacts(e, n, Phase.Open);
      ExchangeChannels(w, p, []);
      AcceptorReadsSeqFits(e, DiscardRequeuedUpTo(e, n).(phase := Phase.Open), f, p, i, w, w2, n);
      WireStep(s, p, DiscardRequeuedUpTo(e, n).(phase := Phase.Open), i, w2);
    }
  }

  // ---------------------------------------------------------------- the negotiation

  /** Only numbers of the negotiation, the phase and the socket change. */
  ghost predicate SameSession(e: Endpoint, e2: Endpoint) {
    && e2.outQ == e.outQ && e2.sent == e.sent && e2.outSeq == e.outSeq && e2.inSeq == e.inSeq
    && e2.ackLeft == e.ackLeft
    && e2.refs == e.refs && e2.log == e.log && e2.finished == e.finished
    && e2.accepted == e.accepted && e2.dispatched == e.dispatched
  }

  lemma SameSessionFacts(e: Endpoint, e2: Endpoint)
    requires SenderOk(e) && Owned(e) && SameSession(e, e2)
    requires !e2.phase.Closed? && !e2.phase.Absent?
    requires !e2.phase.Open? && !e2.phase.Replacing? ==> e.sent == []
    requires e2.replacing <==> e2.phase.Replacing? || e2.phase.AcceptWaitConnect?
    requires (e2.connectSeq == 0 ==> e.connectSeq == 0) && (e2.hardReset ==> e2.replacing)
    requires e2.phase.Open? || e2.phase.AcceptWaitSeq? || e2.phase.AcceptReady? ==> e2.connectSeq > 0
    ensures SenderOk(e2) && Owned(e2)
  {
    hide Window, Queued, Ids;
  }

  /** RESETSESSION is never among the replies of a run without resets, and RETRY_SESSION raises connect_seq. */
  lemma AfterReplyFacts(e: Endpoint, pk: Packet)
    requires SenderOk(e) && Owned(e) && CanReceive(e, pk) && IsReply(pk) && NumbersAgree(e.connectSeq, pk)
    ensures var e2 := AfterReply(e, pk);
            && SenderOk(e2) && Owned(e2) && SameSession(e, e2) && e2.wire == e.wire
            && (match e2.phase
                case WaitReply => pk.Reply?
                case RaceWait => pk.Reply?
                case WaitAckSeq(c, g) => pk == SeqReply(c, g) && e2.connectSeq == e.connectSeq
                case ConnectReady(c, g) => pk == ReadyReply(c, g) && e2.connectSeq == e.connectSeq
                case _ => false)
  {
    hide Window, Owned, NextGlobalSeq;
    SameSessionFacts(e, AfterReply(e, pk));
  }

  lemma TakeReplyShape(e: Endpoint, e2: Endpoint, p: Side, w: Wire, w2: Wire)
    requires Shape(w) && PhaseOnWire(e, p, w) && NumbersOnWire(e, p, w)
    requires In(w, p).q != []
    requires CanReceive(e, In(w, p).q[0]) && IsReply(In(w, p).q[0]) && !In(w, p).q[0].ReadyReply?
    requires e2 == AfterReply(e, In(w, p).q[0])
    requires w2.connector == w.connector && w2.stage == w.stage && w2.adopted == w.adopted
    requires In(w2, p).q == In(w, p).q[1..] && Out(w2, p) == Push(Out(w, p), NextConnect(e2))
    ensures w.connector == p && w.stage <= 1
    ensures Shape(w2) && PhaseOnWire(e2, p, w2) && NumbersOnWire(e2, p, w2)
    ensures e2.phase.WaitAckSeq? ==> e2.phase.connectSeq == e2.connectSeq + 1
    ensures forall x | x in In(w2, p).q :: x in In(w, p).q && !x.Data?
    ensures forall x | x in Out(w2, p).q :: x.ConnectMsg?
  {
    hide NextGlobalSeq;
    assert w.connector == p;
    assert NumbersAgree(e.connectSeq, In(w, p).q[0]);
  }

  /** The connector takes a reply: the data channels are still empty, only negotiation numbers move. */
  lemma ConnectorTakesReplyFits(e: Endpoint, e2: Endpoint, f: Endpoint, p: Side, i: nat, w: Wire, w2: Wire)
    requires Fits(e, e, f, p, i, w) && e.wire == Some(i) && e.phase.WaitReply?
    requires In(w, p).q != []
    requires CanReceive(e, In(w, p).q[0]) && IsReply(In(w, p).q[0]) && !In(w, p).q[0].ReadyReply?
    requires SenderOk(e) && Owned(e) && e2 == AfterReply(e, In(w, p).q[0])
    requires w2.connector == w.connector && w2.stage == w.stage && w2.adopted == w.adopted
    requires In(w2, p).q == In(w, p).q[1..] && Out(w2, p) == Push(Out(w, p), NextConnect(e2))
    ensures Fits(e, e2, f, p, i, w2)
  {
    hide SenderOk, Owned, Link, AfterReply, Shape, NumbersAgree, CanReceive, Push, NextConnect;
    HeadAgrees(e, p, w);
    AfterReplyFacts(e, In(w, p).q[0]);
    TakeReplyShape(e, e2, p, w, w2);
    NoDataLink(f, e2, w2, Other(p));
    if f.wire == Some(i) {
      forall x | x in In(w2, p).q && x.InSeq? ensures x.n == f.inSeq {
        LinkNumber(e, f, w, p, x);
      }
      NoDataLink(e2, f, w2, p);
      OtherNumbersIrrelevant(f, Other(p), w2);
    }
  }

  lemma HeadAgrees(e: Endpoint, p: Side, w: Wire)
    requires PhaseOnWire(e, p, w) && NumbersOnWire(e, p, w) && e.phase.WaitReply? && In(w, p).q != []
    ensures w.connector == p && NumbersAgree(e.connectSeq, In(w, p).q[0])
  {
    hide NumbersAgree;
    assert In(w, p).q[0] in w.back.q;
  }

  /**
   The connector reads READY. The acceptor opened without asking for its numbers, which is right
   because the connector has exchanged nothing yet.
   */
  lemma ConnectorTakesReadyFits(e: Endpoint, e2: Endpoint, f: Endpoint, p: Side, i: nat, w: Wire, w2: Wire)
    requires Fits(e, e, f, p, i, w) && e.wire == Some(i) && e.phase.WaitReply?
    requires In(w, p).q != [] && In(w, p).q[0].ReadyReply?
    requires SenderOk(e) && Owned(e) && e2 == AfterReply(e, In(w, p).q[0])
    requires w2.connector == w.connector && w2.stage == 3 && w2.adopted == w.adopted
    requires In(w2, p) == Channel(In(w, p).q[1..], In(w, p).alive) && Out(w2, p) == Out(w, p)
    ensures Fits(e, e2, f, p, i, w2)
  {
    hide SenderOk, Owned, Chain, DataCount;
    HeadAgrees(e, p, w);
    ReadyStage(e, p, w);
    AfterReplyFacts(e, In(w, p).q[0]);
    NothingWrittenYet(e2);
    PopChain(In(w, p).q, e.inSeq);
    if f.wire == Some(i) {
      NoDataLink(e2, f, w2, p);
    }
  }

  lemma ReadyStage(e: Endpoint, p: Side, w: Wire)
    requires Shape(w) && PhaseOnWire(e, p, w) && e.phase.WaitReply? && In(w, p).q != [] && In(w, p).q[0].ReadyReply?
    ensures w.connector == p && w.stage == 4 && Virgin(e) && w.forward.q == [] && Traffic(w.back.q[1..])
  {
    assert w.back.q[0] in w.back.q;
  }

  lemma NothingWrittenYet(e: Endpoint)
    requires SenderOk(e) && e.log == []
    ensures e.outSeq == 0 && e.sent == []
  {
  }

  lemma OtherNumbersIrrelevant(f: Endpoint, q: Side, w: Wire)
    requires w.connector != q
    ensures NumbersOnWire(f, q, w)
  {
  }

  lemma NothingAfterSeq(e: Endpoint, pk: Packet)
    requires CanReceive(e, pk) && IsReply(pk)
    ensures pk.SeqReply? ==> NextConnect(AfterReply(e, pk)) == []
  {
  }

  lemma ReceiveReplyKeepsInv(s: State, p: Side)
    requires Inv(s) && Enabled(s, Receive(p)) && Ep(s, p).phase.WaitReply?
    ensures Inv(Step(s, Receive(p)))
  {
    hide SenderOk, Owned, Direction, Shape, HandshakeOk, Fits, Exchange, AfterReply, DecisionAt, NextOutgoing;
    var e := Ep(s, p);
    var i := e.wire.value;
    var w := s.wires[i];
    var e2 := AfterReply(e, In(w, p).q[0]);
    assert SideOk(s, p);
    InvAt(s, p, i);
    if In(w, p).q[0].ReadyReply? {
      var w2 := Exchange(w, p, []).(stage := 3);
      ExchangeChannels(w, p, []);
      ConnectorTakesReadyFits(e, e2, Ep(s, Other(p)), p, i, w, w2);
      WireStep(s, p, e2, i, w2);
      return;
    }
    NothingAfterSeq(e, In(w, p).q[0]);
    ExchangeChannels(w, p, NextConnect(e2));
    ConnectorTakesReplyFits(e, e2, Ep(s, Other(p)), p, i, w, Exchange(w, p, NextConnect(e2)));
    WireStep(s, p, e2, i, Exchange(w, p, NextConnect(e2)));
  }

  /** The peer has received nothing, so nothing is dropped. */
  lemma NothingToDiscard(e: Endpoint)
    requires NoEmptyList(e.outQ)
    ensures DiscardRequeuedUpTo(e, 0) == e
  {
    var l := ListAt(e.outQ, HIGHEST);
    assert DiscardCount(l, 0) == 0;
    assert l[..0] == [] && l[0..] == l;
    assert IdList([]) == [];
    assert e.finished + [] == e.finished;
    if HIGHEST in e.outQ {
      assert e.outQ[HIGHEST := l] == e.outQ;
    }
  }

  /** While the peer has written nothing, opening changes no more than the numbers of the negotiation. */
  lemma OpenSessionFacts(e: Endpoint, c: nat, g: nat)
    requires SenderOk(e) && Owned(e) && e.sent == [] && (e.hardReset ==> e.inSeq == 0)
    ensures var e2 := OpenSession(e, c, g);
            && SenderOk(e2) && Owned(e2) && SameSession(e, e2) && e2.wire == e.wire && e2.connectSeq == c + 1
            && !e2.hardReset
            && e2.phase == if e.hardReset then AcceptReady else AcceptWaitSeq
  {
    hide Queued, Ids, NextGlobalSeq, DiscardRequeuedUpTo;
    if e.hardReset {
      NothingToDiscard(e);
    }
    hide Window;
    SameSessionFacts(e, OpenSession(e, c, g));
  }

  /** A session opens on a wire: the reply carries its last received number. */
  lemma OpenFits(e: Endpoint, e2: Endpoint, f: Endpoint, p: Side, i: nat, w: Wire, w2: Wire)
    requires Fits(e, e, f, p, i, w) && p != w.connector && w.stage == 0
    requires w.forward.q != [] && w.forward.q[0].ConnectMsg?
    requires SenderOk(e2) && Owned(e2) && SameSession(e, e2) && e2.wire == Some(i) && e2.phase.AcceptWaitSeq?
    requires e2.connectSeq == w.forward.q[0].connectSeq + 1
    requires w2.connector == w.connector && w2.stage == 1 && w2.adopted
    requires In(w2, p).q == In(w, p).q[1..] && Out(w2, p) == Push(Out(w, p), OpenReply(e2))
    ensures Fits(e, e2, f, p, i, w2)
  {
    hide SenderOk, Owned, Link;
    assert In(w2, p).q == [] && Out(w, p).q == [];
    NoDataLink(f, e2, w2, Other(p));
    if f.wire == Some(i) {
      assert f.phase.WaitReply?;
      assert NumbersAgree(f.connectSeq, w.forward.q[0]);
      NoDataLink(e2, f, w2, p);
    }
  }

  /**
   The session opens without an exchange of numbers. As the peer has written and received nothing,
   both would have been 0.
   */
  lemma OpenReadyFits(e: Endpoint, e2: Endpoint, f: Endpoint, p: Side, i: nat, w: Wire, w2: Wire)
    requires Fits(e, e, f, p, i, w) && p != w.connector && w.stage == 0
    requires w.forward.q != [] && w.forward.q[0].ConnectMsg? && Virgin(f)
    requires SenderOk(e2) && Owned(e2) && SameSession(e, e2) && e2.wire == Some(i) && e2.phase.AcceptReady?
    requires e2.sent == [] && e2.connectSeq == w.forward.q[0].connectSeq + 1
    requires w2.connector == w.connector && w2.stage == 4 && w2.adopted
    requires In(w2, p).q == In(w, p).q[1..] && Out(w2, p) == Push(Out(w, p), OpenReply(e2))
    ensures Fits(e, e2, f, p, i, w2)
  {
    hide SenderOk, Owned, Link;
    assert In(w2, p).q == [] && Out(w, p).q == [];
    NoDataLink(f, e2, w2, Other(p));
    if f.wire == Some(i) {
      assert f.phase.WaitReply?;
      assert NumbersAgree(f.connectSeq, w.forward.q[0]);
      NoDataLink(e2, f, w2, p);
    }
  }

  lemma AcceptWaitStage(e: Endpoint, f: Endpoint, p: Side, i: nat, w: Wire)
    requires Fits(e, e, f, p, i, w) && e.wire == Some(i) && e.phase.AcceptWaitConnect?
    ensures p != w.connector && w.stage == 0 && w.adopted && e.sent == []
    ensures Virgin(f) ==> e.inSeq == 0
  {
    hide Owned, Link, PacketsOk;
  }

  /** p opens on wire i, by SEQ or by READY. */
  lemma OpenEitherFits(e: Endpoint, e2: Endpoint, f: Endpoint, p: Side, i: nat, w: Wire, w2: Wire)
    requires Fits(e, e, f, p, i, w) && p != w.connector && w.stage == 0
    requires w.forward.q != [] && w.forward.q[0].ConnectMsg? && (e.hardReset ==> Virgin(f))
    requires SenderOk(e2) && Owned(e2) && SameSession(e, e2) && e2.wire == Some(i) && e2.sent == []
    requires e2.phase == if e.hardReset then AcceptReady else AcceptWaitSeq
    requires e2.connectSeq == w.forward.q[0].connectSeq + 1
    requires w2.connector == w.connector && w2.stage == OpenStage(e2) && w2.adopted
    requires In(w2, p).q == In(w, p).q[1..] && Out(w2, p) == Push(Out(w, p), OpenReply(e2))
    ensures Fits(e, e2, f, p, i, w2)
  {
    hide Fits, SenderOk, Owned, SameSession;
    if e.hardReset {
      OpenReadyFits(e, e2, f, p, i, w, w2);
    } else {
      OpenFits(e, e2, f, p, i, w, w2);
    }
  }

  lemma ReceiveConnectKeepsInv(s: State, p: Side)
    requires Inv(s) && Enabled(s, Receive(p)) && Ep(s, p).phase.AcceptWaitConnect?
    requires Ep(s, p).hardReset ==> Virgin(Ep(s, Other(p)))
    ensures Inv(Step(s, Receive(p)))
  {
    hide Window, Owned, Direction, Shape, HandshakeOk, Fits, Exchange, DecisionAt, NextOutgoing, OpenSession,
         OpenReply, OpenStage, SenderOk;
    var e, f := Ep(s, p), Ep(s, Other(p));
    var i := e.wire.value;
    var w := s.wires[i];
    var c := In(w, p).q[0];
    var e2 := OpenSession(e, c.connectSeq, c.globalSeq);
    var w2 := Exchange(w, p, OpenReply(e2)).(stage := OpenStage(e2));
    assert SideOk(s, p);
    InvAt(s, p, i);
    AcceptWaitStage(e, f, p, i, w);
    OpenSessionFacts(e, c.connectSeq, c.globalSeq);
    ExchangeChannels(w, p, OpenReply(e2));
    OpenEitherFits(e, e2, f, p, i, w, w2);
    WireStep(s, p, e2, i, w2);
  }

  // ---------------------------------------------------------------- the anonymous acceptor

  /** On a wire nobody adopted, the accepting side has no session yet. */
  lemma AnonymousStage(e: Endpoint, f: Endpoint, p: Side, i: nat, w: Wire)
    requires Fits(e, e, f, p, i, w) && !w.adopted && p != w.connector
    ensures w.stage == 0 && e.wire != Some(i)
  {
    hide SenderOk, Owned, Link, PacketsOk, Fronts;
  }

  /** The acceptor answers without adopting the wire. */
  lemma AnswerFits(e: Endpoint, f: Endpoint, p: Side, i: nat, w: Wire, w2: Wire, d: Decision)
    requires Fits(e, e, f, p, i, w) && !w.adopted && p != w.connector
    requires w.forward.q != [] && w.forward.q[0].ConnectMsg?
    requires d.RetryGlobal? || d.Wait? || (d.RetrySession? && d.connectSeq > w.forward.q[0].connectSeq)
    requires w2.connector == w.connector && w2.stage == w.stage && w2.adopted == w.adopted
    requires In(w2, p).q == In(w, p).q[1..] && Out(w2, p) == Push(Out(w, p), [Reply(d)])
    ensures Fits(e, e, f, p, i, w2)
  {
    hide SenderOk, Owned, Link;
    AnonymousStage(e, f, p, i, w);
    if f.wire == Some(i) {
      assert f.phase.WaitReply?;
      assert NumbersAgree(f.connectSeq, w.forward.q[0]);
      NoDataLink(e, f, w2, p);
    }
  }

  /** The session moves to the wire; what it had sent stays on `sent` until it is requeued. */
  lemma AdoptFits(e: Endpoint, e2: Endpoint, f: Endpoint, p: Side, i: nat, w: Wire, w2: Wire)
    requires Fits(e, e, f, p, i, w) && !w.adopted && p != w.connector
    requires w.forward.q != [] && w.forward.q[0].ConnectMsg?
    requires SenderOk(e2) && Owned(e2) && SameSession(e, e2) && e2.wire == Some(i) && e2.phase.Replacing?
    requires w2.connector == w.connector && w2.stage == w.stage && w2.adopted
    requires In(w2, p).q == In(w, p).q[1..] && Out(w2, p) == Out(w, p)
    ensures Fits(e, e2, f, p, i, w2)
  {
    hide SenderOk, Owned, Link;
    AnonymousStage(e, f, p, i, w);
    NoDataLink(f, e2, w2, Other(p));
    if f.wire == Some(i) {
      NoDataLink(e2, f, w2, p);
    }
  }

  /** What the acceptor can answer. */
  lemma AnswerKinds(s: State, i: nat, exact: bool)
    requires Enabled(s, Accept(i, exact))
    ensures var c := s.wires[i].forward.q[0];
            var d := DecisionAt(s, Other(s.wires[i].connector), exact, c);
            && (d.Open? ==> Ep(s, Other(s.wires[i].connector)).phase.Absent?)
            && (d.Replace? ==> !Ep(s, Other(s.wires[i].connector)).phase.Absent?)
            && (d.Open? || d.Replace? || d.RetryGlobal? || d.Wait? || d.ResetSession?
                || (d.RetrySession? && d.connectSeq > c.connectSeq))
  {
    var c := s.wires[i].forward.q[0];
    var q := Other(s.wires[i].connector);
    RetrySessionRaises(ExistingOf(Ep(s, q), Pol(s.cfg, q), exact), AcceptorOf(s.cfg, q, false),
                       N.Connect(c.connectSeq, c.globalSeq));
  }

  lemma AdoptedFacts(e: Endpoint, hard: bool, i: nat)
    requires SenderOk(e) && Owned(e) && !e.phase.Absent?
    ensures var e2 := Adopt(e, hard, false, i);
            SenderOk(e2) && Owned(e2) && SameSession(e, e2)
  {
    hide Window, Queued, Ids;
  }

  lemma AcceptKeepsInv(s: State, i: nat, exact: bool)
    requires Inv(s) && Enabled(s, Accept(i, exact)) && !Resets(s, Accept(i, exact))
    ensures Inv(Step(s, Accept(i, exact)))
  {
    hide SenderOk, Owned, Direction, Shape, HandshakeOk, Fits, Exchange, DecisionAt, NextOutgoing, SameSession,
         NextGlobalSeq, OpenSession, OpenReply, OpenStage, WasReset;
    var w := s.wires[i];
    var p := Other(w.connector);
    var e, f := Ep(s, p), Ep(s, Other(p));
    var c := w.forward.q[0];
    var d := DecisionAt(s, p, exact, c);
    assert SideOk(s, p);
    InvAt(s, p, i);
    AnswerKinds(s, i, exact);
    AnonymousStage(e, f, p, i, w);
    if d.Replace? {
      var e2 := Adopt(e, d.hardReset, false, i);
      assert e2 == Adopt(e, d.hardReset, Pol(s.cfg, p).resetcheck, i);
      AdoptedFacts(e, d.hardReset, i);
      ExchangeChannels(w, p, []);
      AdoptFits(e, e2, f, p, i, w, Exchange(w, p, []).(adopted := true));
      WireStep(s, p, e2, i, Exchange(w, p, []).(adopted := true));
    } else if d.Open? {
      OpenAnonymousKeepsInv(s, i, exact);
    } else {
      ExchangeChannels(w, p, [Reply(d)]);
      AnswerFits(e, f, p, i, w, Exchange(w, p, [Reply(d)]), d);
      WireStep(s, p, e, i, Exchange(w, p, [Reply(d)]));
    }
  }

  /** The first session of a side opens on a socket that nobody has adopted. */
  lemma OpenAnonymousKeepsInv(s: State, i: nat, exact: bool)
    requires Inv(s) && Enabled(s, Accept(i, exact))
    requires DecisionAt(s, Other(s.wires[i].connector), exact, s.wires[i].forward.q[0]).Open?
    ensures Inv(Step(s, Accept(i, exact)))
  {
    hide SenderOk, Owned, Direction, Shape, HandshakeOk, Fits, Exchange, DecisionAt, NextOutgoing, SameSession,
         NextGlobalSeq, OpenSession, OpenReply, OpenStage;
    var w := s.wires[i];
    var p := Other(w.connector);
    var e, f := Ep(s, p), Ep(s, Other(p));
    var c := w.forward.q[0];
    var e1 := OpenSession(e, c.connectSeq, c.globalSeq);
    var e2 := e1.(wire := Some(i));
    var w2 := Exchange(w, p, OpenReply(e2)).(adopted := true, stage := OpenStage(e2));
    assert SideOk(s, p);
    InvAt(s, p, i);
    AnonymousStage(e, f, p, i, w);
    AbsentIsEmpty(e);
    OpenSessionFacts(e, c.connectSeq, c.globalSeq);
    OtherSocket(e, e1, i);
    ExchangeChannels(w, p, OpenReply(e2));
    OpenEitherFits(e, e2, f, p, i, w, w2);
    WireStep(s, p, e2, i, w2);
  }

  lemma OtherSocket(e: Endpoint, e1: Endpoint, i: nat)
    requires SenderOk(e1) && Owned(e1) && SameSession(e, e1) && !e1.phase.Absent?
    ensures var e2 := e1.(wire := Some(i));
            SenderOk(e2) && Owned(e2) && SameSession(e, e2) && e2.sent == e.sent
  {
    hide Window, Queued, Ids;
  }

  lemma AbsentIsEmpty(e: Endpoint)
    requires SenderOk(e) && e.phase.Absent?
    ensures e.sent == [] && !e.hardReset
  {
  }

  // ---------------------------------------------------------------- the end of a replacement

  lemma FinishReplaceFacts(e: Endpoint)
    requires SenderOk(e) && Owned(e) && e.phase.Replacing?
    ensures |e.sent| <= e.outSeq
    ensures var e2 := RequeueSent(e).(phase := AcceptWaitConnect);
            && SenderOk(e2) && Owned(e2) && e2.sent == []
            && e2.outSeq == e.outSeq - |e.sent|
            && e2.wire == e.wire && e2.log == e.log && e2.inSeq == e.inSeq && e2.dispatched == e.dispatched
  {
    RequeueKeepsWindow(e.outQ, e.sent, e.outSeq, e.log);
    assert |e.sent| <= e.outSeq;
    RequeueSentKeepsOwned(e);
    hide Window, Queued, Ids, Requeue;
  }

  lemma FinishReplaceFits(e: Endpoint, e2: Endpoint, f: Endpoint, p: Side, i: nat, w: Wire, w2: Wire)
    requires Fits(e, e, f, p, i, w) && e.wire == Some(i) && e.phase.Replacing?
    requires SenderOk(e2) && Owned(e2) && e2.sent == [] && e2.phase.AcceptWaitConnect? && e2.wire == Some(i)
    requires e2.outSeq == e.outSeq - |e.sent|
    requires e2.log == e.log && e2.inSeq == e.inSeq && e2.dispatched == e.dispatched
    requires w2 == WithOut(w, p, Push(Out(w, p), [Reply(RetryGlobal(e.peerGlobalSeq))]))
    ensures Fits(e, e2, f, p, i, w2)
  {
    hide SenderOk, Owned, Link;
    assert p != w.connector && w.stage == 0;
    NoDataLink(f, e2, w2, Other(p));
    if f.wire == Some(i) {
      NoDataLink(e2, f, w2, p);
    }
  }

  lemma FinishReplaceKeepsInv(s: State, p: Side)
    requires Inv(s) && Enabled(s, FinishReplace(p))
    ensures Inv(Step(s, FinishReplace(p)))
  {
    hide SenderOk, Owned, Direction, Shape, HandshakeOk, Fits, DecisionAt, NextOutgoing, Requeue;
    var e := Ep(s, p);
    var i := e.wire.value;
    var w := s.wires[i];
    var w2 := WithOut(w, p, Push(Out(w, p), [Reply(RetryGlobal(e.peerGlobalSeq))]));
    assert SideOk(s, p);
    InvAt(s, p, i);
    FinishReplaceFacts(e);
    FinishReplaceFits(e, RequeueSent(e).(phase := AcceptWaitConnect), Ep(s, Other(p)), p, i, w, w2);
    WireStep(s, p, RequeueSent(e).(phase := AcceptWaitConnect), i, w2);
  }

  // ---------------------------------------------------------------- cuts and new sockets

  lemma CutShape(w: Wire, forward: bool, keep: nat)
    requires Shape(w) && keep <= |(if forward then w.forward else w.back).q|
    ensures Shape(CutWire(w, forward, keep))
  {
    if w.stage == 2 && forward && keep > 0 {
      assert w.forward.q[..keep][1..] == w.forward.q[1..][..keep - 1];
    }
  }

  lemma CutLink(e: Endpoint, f: Endpoint, w: Wire, p: Side, forward: bool, keep: nat)
    requires Link(e, f, w, p) && keep <= |(if forward then w.forward else w.back).q|
    ensures Link(e, f, CutWire(w, forward, keep), p)
  {
    var w2 := CutWire(w, forward, keep);
    if Out(w2, p) != Out(w, p) {
      ChainPrefix(Out(w, p).q, f.inSeq, keep);
      DataCountPrefix(Out(w, p).q, keep);
    }
  }

  /** A cut only removes packets, so what holds of every packet and every phase still holds. */
  lemma CutRest(e: Endpoint, p: Side, log: seq<nat>, n: nat, w: Wire, forward: bool, keep: nat)
    requires keep <= |(if forward then w.forward else w.back).q|
    ensures PacketsOk(w, p, log, n) ==> PacketsOk(CutWire(w, forward, keep), p, log, n)
    ensures PhaseOnWire(e, p, w) ==> PhaseOnWire(e, p, CutWire(w, forward, keep))
    ensures NumbersOnWire(e, p, w) ==> NumbersOnWire(e, p, CutWire(w, forward, keep))
  {
    hide FromSender, FromReceiver, NumbersAgree;
  }

  lemma CutFits(e: Endpoint, f: Endpoint, p: Side, i: nat, w: Wire, forward: bool, keep: nat)
    requires Fits(e, e, f, p, i, w) && keep <= |(if forward then w.forward else w.back).q|
    ensures Fits(e, e, f, p, i, CutWire(w, forward, keep))
  {
    hide SenderOk, Owned, Link, Shape, PacketsOk, PhaseOnWire, NumbersOnWire, Fronts;
    CutShape(w, forward, keep);
    CutRest(e, p, e.log, f.inSeq, w, forward, keep);
    CutRest(f, Other(p), f.log, e.inSeq, w, forward, keep);
    if e.wire == Some(i) {
      CutLink(f, e, w, Other(p), forward, keep);
    }
    if f.wire == Some(i) {
      CutLink(e, f, w, p, forward, keep);
    }
  }

  lemma CutKeepsInv(s: State, i: nat, forward: bool, keep: nat)
    requires Inv(s) && Enabled(s, Cut(i, forward, keep))
    ensures Inv(Step(s, Cut(i, forward, keep)))
  {
    hide SenderOk, Owned, Direction, Shape, HandshakeOk, Fits, DecisionAt, NextOutgoing;
    InvAt(s, A, i);
    CutFits(s.a, s.b, A, i, s.wires[i], forward, keep);
    WireStep(s, A, s.a, i, CutWire(s.wires[i], forward, keep));
  }

  /** A socket that nobody uses yet. */
  function FreshWire(p: Side): Wire {
    Wire(p, Channel([], true), Channel([], true), 0, false)
  }

  lemma FreshWireHandshake(e: Endpoint, p: Side, wires: seq<Wire>, w: Wire)
    requires HandshakeOk(e, p, wires)
    ensures HandshakeOk(e, p, wires + [w])
  {
    hide PhaseOnWire, NumbersOnWire;
  }

  lemma FreshWireKeepsInv(s: State, p: Side)
    requires Inv(s)
    ensures Inv(s.(wires := s.wires + [FreshWire(p)]))
  {
    hide SenderOk, Owned, HandshakeOk, Fronts, Link;
    var t := s.(wires := s.wires + [FreshWire(p)]);
    FreshWireHandshake(s.a, A, s.wires, FreshWire(p));
    FreshWireHandshake(s.b, B, s.wires, FreshWire(p));
    assert forall q :: Attached(s, q) <==> Attached(t, q) by { FreshAttached(s, p); }
    assert SideOk(t, A) && SideOk(t, B);
  }

  lemma FreshAttached(s: State, p: Side)
    requires Inv(s)
    ensures forall q :: Attached(s, q) <==> Attached(s.(wires := s.wires + [FreshWire(p)]), q)
  {
    hide SenderOk, Owned, Direction, Shape, PhaseOnWire, NumbersOnWire;
    forall q: Side ensures Attached(s, q) <==> Attached(s.(wires := s.wires + [FreshWire(p)]), q) {
      assert SideOk(s, q);
    }
  }

  lemma AttemptFits(e: Endpoint, e2: Endpoint, f: Endpoint, p: Side, i: nat, g: nat)
    requires Fits(e, e, f, p, i, FreshWire(p)) && f.wire != Some(i)
    requires e.phase.Connecting? && SenderOk(e2) && Owned(e2) && SameSession(e, e2)
    requires e2.phase.WaitReply? && e2.wire == Some(i)
    ensures Fits(e, e2, f, p, i, FreshWire(p).(forward := Channel([ConnectMsg(e2.connectSeq, g)], true)))
  {
    hide SenderOk, Owned, Link;
    NoDataLink(f, e2, FreshWire(p).(forward := Channel([ConnectMsg(e2.connectSeq, g)], true)), Other(p));
  }

  lemma AttemptKeepsInv(s: State, p: Side)
    requires Inv(s) && Enabled(s, Attempt(p))
    ensures Inv(Step(s, Attempt(p)))
  {
    hide SenderOk, Owned, Direction, Shape, HandshakeOk, Fits, DecisionAt, NextOutgoing, NextGlobalSeq, SameSession;
    var s1 := s.(wires := s.wires + [FreshWire(p)]);
    var i := |s.wires|;
    var e, f := Ep(s, p), Ep(s, Other(p));
    var t := Step(s, Attempt(p));
    var e2 := Ep(t, p);
    FreshWireKeepsInv(s, p);
    InvAt(s1, p, i);
    NotOnFreshWire(s, Other(p));
    assert SideOk(s, p);
    AttemptFacts(e, i);
    AttemptFits(e, e2, f, p, i, e2.globalSeq);
    var w2 := FreshWire(p).(forward := Channel([ConnectMsg(e2.connectSeq, e2.globalSeq)], true));
    WireStep(s1, p, e2, i, w2);
    assert s1.wires[i := w2] == t.wires;
  }

  lemma NotOnFreshWire(s: State, q: Side)
    requires Inv(s)
    ensures Ep(s, q).wire != Some(|s.wires|)
  {
    hide SenderOk, Owned, Direction, Shape, PhaseOnWire, NumbersOnWire;
    assert SideOk(s, q);
  }

  lemma AttemptFacts(e: Endpoint, i: nat)
    requires SenderOk(e) && Owned(e) && e.phase.Connecting?
    ensures var g := NextGlobalSeq(e.counter, 0);
            var e2 := e.(phase := WaitReply, wire := Some(i), globalSeq := g, counter := g);
            SenderOk(e2) && Owned(e2) && SameSession(e, e2)
  {
    hide Window, Queued, Ids, NextGlobalSeq;
  }
}
