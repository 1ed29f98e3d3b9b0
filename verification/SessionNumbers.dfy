/**
 The two numbers of the negotiation, connect_seq and global_seq, over every run: both ends of an open
 session agree on them, what a session has accepted as its peer's global number never falls, and a new
 attempt is newer than everything its side has sent before.
 */
module SessionNumbers {
  import opened Wrappers
  import opened SendQueue
  import opened Endpoints
  import opened N = Negotiation
  import opened Session
  import opened SessionSafety
  import opened SessionSteps
  import opened SessionReady
  import opened SessionTheorems

  /** The global number a packet carries for the side that sent it. */
  function NumberOf(pk: Packet): nat {
    match pk
    case ConnectMsg(_, g) => g
    case SeqReply(_, g) => g
    case ReadyReply(_, g) => g
    case _ => 0
  }

  predicate IsFinal(pk: Packet) {
    pk.SeqReply? || pk.ReadyReply?
  }

  /** No packet of the queue carries a number above n. */
  ghost predicate AtMost(q: seq<Packet>, n: nat) {
    forall pk | pk in q :: NumberOf(pk) <= n
  }

  /** Nothing of p's, sent or accepted by the peer f, is above p's counter. */
  ghost predicate Older(e: Endpoint, f: Endpoint, p: Side, wires: seq<Wire>) {
    && e.globalSeq <= e.counter && f.peerGlobalSeq <= e.counter
    && (f.phase.WaitAckSeq? || f.phase.ConnectReady? ==> f.phase.globalSeq <= e.counter)
    && forall i | 0 <= i < |wires| :: AtMost(Out(wires[i], p).q, e.counter)
  }

  /** What e will still read on its wire is newer than what it has accepted. */
  ghost predicate Newer(e: Endpoint, p: Side, w: Wire) {
    if w.connector == p then
      && (e.phase.WaitReply? ==> forall pk | pk in w.back.q && IsFinal(pk) :: NumberOf(pk) > e.peerGlobalSeq)
      && (e.phase.WaitAckSeq? || e.phase.ConnectReady? ==> e.phase.globalSeq > e.peerGlobalSeq)
    else
      e.phase.AcceptWaitConnect? ==>
        && (forall pk | pk in w.forward.q && pk.ConnectMsg? :: pk.globalSeq > e.peerGlobalSeq)
        && forall pk | pk in w.back.q && pk.Reply? ::
             pk.decision.RetryGlobal? && pk.decision.globalSeq >= e.peerGlobalSeq
  }

  /** The connect message under way is the connector's latest. */
  ghost predicate Latest(e: Endpoint, p: Side, w: Wire) {
    w.connector == p && e.phase.WaitReply? ==>
      forall pk | pk in w.forward.q && pk.ConnectMsg? :: pk.globalSeq == e.globalSeq
  }

  /** The connector e and the acceptor f, which has opened the session on this wire. */
  ghost predicate Agree(e: Endpoint, f: Endpoint, w: Wire) {
    w.stage > 0 ==>
      && f.connectSeq == e.connectSeq + (if e.phase.Open? then 0 else 1)
      && f.peerGlobalSeq == e.globalSeq
      && (forall pk | pk in w.back.q && IsFinal(pk) :: NumberOf(pk) == f.counter)
      && (e.phase.WaitAckSeq? || e.phase.ConnectReady? ==> e.phase.globalSeq == f.counter)
      && (e.phase.Open? ==> e.peerGlobalSeq == f.counter)
  }

  predicate IsNewFor(e: Endpoint, connectSeq: nat) {
    connectSeq == 0 && e.connectSeq > 0
  }

  /** The acceptor e has noted a reset of its peer exactly if the connector f starts again. */
  ghost predicate Claimed(e: Endpoint, f: Endpoint, i: nat, w: Wire) {
    e.phase.Replacing? || e.phase.AcceptWaitConnect? ==>
      && (f.wire == Some(i) && f.phase.WaitReply? ==> (e.hardReset <==> IsNewFor(e, f.connectSeq)))
      && forall pk | pk in w.forward.q && pk.ConnectMsg? :: e.hardReset <==> IsNewFor(e, pk.connectSeq)
  }

  /** p's end of wire i, if it is there. */
  ghost predicate EndOk(e: Endpoint, f: Endpoint, p: Side, i: nat, w: Wire) {
    e.wire == Some(i) ==>
      && Newer(e, p, w) && Latest(e, p, w)
      && (if w.connector == p then f.wire == Some(i) ==> Agree(e, f, w) else Claimed(e, f, i, w))
  }

  ghost predicate NumbersOk(s: State, p: Side) {
    var e, f := Ep(s, p), Ep(s, Other(p));
    Older(e, f, p, s.wires) && forall i | 0 <= i < |s.wires| :: EndOk(e, f, p, i, s.wires[i])
  }

  ghost predicate Numbers(s: State) {
    NumbersOk(s, A) && NumbersOk(s, B)
  }

  lemma BothSides(s: State, p: Side)
    ensures Numbers(s) <==> NumbersOk(s, p) && NumbersOk(s, Other(p))
  {
    hide NumbersOk;
  }

  lemma InitNumbers(cfg: Config)
    ensures Numbers(Init(cfg))
  {
  }

  // ---------------------------------------------------------------- frames

  /** What has to hold of p's changed session and of wire i. */
  ghost predicate NumbersFit(e: Endpoint, e2: Endpoint, f: Endpoint, p: Side, i: nat, w2: Wire) {
    && e2.globalSeq <= e2.counter && e.counter <= e2.counter && e2.peerGlobalSeq <= f.counter
    && (e2.phase.WaitAckSeq? || e2.phase.ConnectReady? ==> e2.phase.globalSeq <= f.counter)
    && (e2 == e || e2.wire == Some(i))
    && AtMost(Out(w2, p).q, e2.counter) && AtMost(Out(w2, Other(p)).q, f.counter)
    && EndOk(e2, f, p, i, w2) && EndOk(f, e2, Other(p), i, w2)
  }

  lemma OlderStep(e: Endpoint, e2: Endpoint, f: Endpoint, f2: Endpoint, p: Side, wires: seq<Wire>, i: nat, w2: Wire)
    requires Older(e, f, p, wires) && i < |wires|
    requires e2.globalSeq <= e2.counter && e.counter <= e2.counter && f2.peerGlobalSeq <= e2.counter
    requires f2.phase.WaitAckSeq? || f2.phase.ConnectReady? ==> f2.phase.globalSeq <= e2.counter
    requires AtMost(Out(w2, p).q, e2.counter)
    ensures Older(e2, f2, p, wires[i := w2])
  {
    var wires2 := wires[i := w2];
    forall j | 0 <= j < |wires2| ensures AtMost(Out(wires2[j], p).q, e2.counter) {
      assert AtMost(Out(wires[j], p).q, e.counter);
    }
  }

  lemma WireStepNumbers(s: State, p: Side, e2: Endpoint, i: nat, w2: Wire)
    requires Numbers(s) && i < |s.wires|
    requires NumbersFit(Ep(s, p), e2, Ep(s, Other(p)), p, i, w2)
    ensures Numbers(Changed(s, p, e2, i, w2))
  {
    hide Newer, Latest, Agree, Claimed, AtMost, Out, Older;
    var q := Other(p);
    var e, f := Ep(s, p), Ep(s, q);
    var t := Changed(s, p, e2, i, w2);
    BothSides(s, p);
    BothSides(t, p);
    assert Ep(t, p) == e2 && Ep(t, q) == f && Other(q) == p;
    OlderFacts(e, f, p, s.wires);
    OlderFacts(f, e, q, s.wires);
    OlderStep(e, e2, f, f, p, s.wires, i, w2);
    OlderStep(f, f, e, e2, q, s.wires, i, w2);
    forall j | 0 <= j < |t.wires|
      ensures EndOk(e2, f, p, j, t.wires[j]) && EndOk(f, e2, q, j, t.wires[j])
    {
      assert EndOk(e, f, p, j, s.wires[j]) && EndOk(f, e, q, j, s.wires[j]);
      if j != i {
        ClaimedFrame(f, e, e2, j, s.wires[j]);
      }
    }
  }

  lemma ClaimedFrame(e: Endpoint, f: Endpoint, f2: Endpoint, i: nat, w: Wire)
    requires f2 == f || f2.wire != Some(i)
    ensures Claimed(e, f, i, w) ==> Claimed(e, f2, i, w)
  {
  }

  lemma OlderFacts(e: Endpoint, f: Endpoint, p: Side, wires: seq<Wire>)
    requires Older(e, f, p, wires)
    ensures e.globalSeq <= e.counter && f.peerGlobalSeq <= e.counter
    ensures f.phase.WaitAckSeq? || f.phase.ConnectReady? ==> f.phase.globalSeq <= e.counter
  {
  }

  /** The invariant, read at one wire. */
  lemma NumbersAt(s: State, p: Side, i: nat)
    requires Numbers(s) && i < |s.wires|
    ensures NumbersFit(Ep(s, p), Ep(s, p), Ep(s, Other(p)), p, i, s.wires[i])
  {
    hide Newer, Latest, Agree, Claimed, AtMost, Out;
    BothSides(s, p);
    assert Other(Other(p)) == p;
  }

  /** A change that moves no number but p's own, and leaves p where it is or takes it off its wire. */
  ghost predicate Still(e: Endpoint, e2: Endpoint) {
    && e2.globalSeq == e.globalSeq && e2.counter == e.counter
    && (e2.wire == None || (e2.wire == e.wire && e2.phase == e.phase && e2.connectSeq == e.connectSeq
                            && e2.hardReset == e.hardReset))
    && e2.peerGlobalSeq == e.peerGlobalSeq
    && !(e2.wire == None && (e2.phase.WaitAckSeq? || e2.phase.ConnectReady?))
  }

  lemma StillKeepsNumbers(s: State, p: Side, e2: Endpoint)
    requires Numbers(s) && Still(Ep(s, p), e2)
    ensures Numbers(WithEp(s, p, e2))
  {
    hide AtMost, Out;
    var t := WithEp(s, p, e2);
    var q := Other(p);
    BothSides(s, p);
    BothSides(t, p);
    assert Ep(t, p) == e2 && Ep(t, q) == Ep(s, q) && Other(q) == p;
    forall i | 0 <= i < |t.wires|
      ensures EndOk(e2, Ep(s, q), p, i, t.wires[i]) && EndOk(Ep(s, q), e2, q, i, t.wires[i])
    {
      assert EndOk(Ep(s, p), Ep(s, q), p, i, s.wires[i]) && EndOk(Ep(s, q), Ep(s, p), q, i, s.wires[i]);
    }
  }

  // ---------------------------------------------------------------- the session is only used

  lemma LocalKeepsNumbers(s: State, a: Action)
    requires Inv(s) && Numbers(s) && Enabled(s, a) && (a.Start? || a.Send? || a.Wake? || a.Break?)
    ensures Numbers(Step(s, a))
  {
    hide Inv, Numbers, Enqueue, Requeue, DecisionAt, NextOutgoing;
    var e2 := Ep(Step(s, a), a.p);
    NoWireYet(s, a.p);
    assert Step(s, a) == WithEp(s, a.p, e2);
    StillKeepsNumbers(s, a.p, e2);
  }

  lemma NoWireYet(s: State, p: Side)
    requires Inv(s)
    ensures Ep(s, p).phase.Absent? || Ep(s, p).phase.Standby? ==> Ep(s, p).wire == None
    ensures Ep(s, p).wire == None ==> !Ep(s, p).phase.WaitAckSeq? && !Ep(s, p).phase.ConnectReady?
  {
    hide Window, Owned, Direction, NumbersOnWire;
    assert SideOk(s, p);
  }

  /** Socket, phase and numbers are as they were. */
  predicate SameNumbers(e: Endpoint, e2: Endpoint) {
    && e2.wire == e.wire && e2.phase == e.phase && e2.hardReset == e.hardReset && e2.connectSeq == e.connectSeq
    && e2.globalSeq == e.globalSeq && e2.counter == e.counter && e2.peerGlobalSeq == e.peerGlobalSeq
  }

  /** Nothing of the negotiation was added to the queue. */
  ghost predicate Fewer(q2: seq<Packet>, q: seq<Packet>) {
    forall pk | pk in q2 :: pk in q || IsTraffic(pk)
  }

  ghost predicate FewerOn(w2: Wire, w: Wire) {
    && w2.connector == w.connector && w2.stage == w.stage
    && Fewer(w2.forward.q, w.forward.q) && Fewer(w2.back.q, w.back.q)
  }

  lemma EndFrame(e: Endpoint, e2: Endpoint, f: Endpoint, f2: Endpoint, p: Side, i: nat, w: Wire, w2: Wire)
    requires EndOk(e, f, p, i, w) && SameNumbers(e, e2) && SameNumbers(f, f2) && FewerOn(w2, w)
    ensures EndOk(e2, f2, p, i, w2)
  {
  }

  lemma AtMostFrame(w: Wire, w2: Wire, p: Side, n: nat)
    requires AtMost(Out(w, p).q, n) && FewerOn(w2, w)
    ensures AtMost(Out(w2, p).q, n)
  {
    forall pk | pk in Out(w2, p).q ensures NumberOf(pk) <= n {
      assert pk in Out(w, p).q || IsTraffic(pk);
    }
  }

  lemma FrameFit(e: Endpoint, e2: Endpoint, f: Endpoint, p: Side, i: nat, w: Wire, w2: Wire)
    requires NumbersFit(e, e, f, p, i, w) && SameNumbers(e, e2) && (e2 == e || e.wire == Some(i)) && FewerOn(w2, w)
    ensures NumbersFit(e, e2, f, p, i, w2)
  {
    hide EndOk, AtMost, FewerOn, Out;
    AtMostFrame(w, w2, p, e.counter);
    AtMostFrame(w, w2, Other(p), f.counter);
    EndFrame(e, e2, f, f, p, i, w, w2);
    EndFrame(f, f, e, e2, Other(p), i, w, w2);
  }

  /** Traffic carries no number of the negotiation. */
  lemma PushKeepsFit(e: Endpoint, e2: Endpoint, f: Endpoint, p: Side, i: nat, w: Wire, pk: Packet)
    requires NumbersFit(e, e, f, p, i, w) && e.wire == Some(i) && SameNumbers(e, e2) && IsTraffic(pk)
    ensures NumbersFit(e, e2, f, p, i, WithOut(w, p, Push(Out(w, p), [pk])))
  {
    hide NumbersFit, IsTraffic;
    assert FewerOn(WithOut(w, p, Push(Out(w, p), [pk])), w);
    FrameFit(e, e2, f, p, i, w, WithOut(w, p, Push(Out(w, p), [pk])));
  }

  lemma WriteKeepsNumbers(s: State, p: Side)
    requires Numbers(s) && Enabled(s, Write(p))
    ensures Numbers(Step(s, Write(p)))
  {
    hide Numbers, NumbersFit, DecisionAt, NextOutgoing;
    var e := Ep(s, p);
    var i := e.wire.value;
    var e2 := WriteOne(e);
    var pk := Data(e2.sent[|e.sent|].id, e2.outSeq);
    NumbersAt(s, p, i);
    PushKeepsFit(e, e2, Ep(s, Other(p)), p, i, s.wires[i], pk);
    WireStepNumbers(s, p, e2, i, WithOut(s.wires[i], p, Push(Out(s.wires[i], p), [pk])));
  }

  lemma SendAckKeepsNumbers(s: State, p: Side)
    requires Numbers(s) && Enabled(s, SendAck(p))
    ensures Numbers(Step(s, SendAck(p)))
  {
    hide Numbers, NumbersFit, DecisionAt, NextOutgoing;
    var e := Ep(s, p);
    var i := e.wire.value;
    NumbersAt(s, p, i);
    PushKeepsFit(e, e.(ackLeft := 0), Ep(s, Other(p)), p, i, s.wires[i], Ack(e.inSeq));
    WireStepNumbers(s, p, e.(ackLeft := 0), i, WithOut(s.wires[i], p, Push(Out(s.wires[i], p), [Ack(e.inSeq)])));
  }

  lemma CutKeepsFit(e: Endpoint, f: Endpoint, p: Side, i: nat, w: Wire, forward: bool, keep: nat)
    requires NumbersFit(e, e, f, p, i, w) && keep <= |(if forward then w.forward else w.back).q|
    ensures NumbersFit(e, e, f, p, i, CutWire(w, forward, keep))
  {
    hide NumbersFit, IsTraffic;
    FrameFit(e, e, f, p, i, w, CutWire(w, forward, keep));
  }

  lemma CutKeepsNumbers(s: State, i: nat, forward: bool, keep: nat)
    requires Numbers(s) && Enabled(s, Cut(i, forward, keep))
    ensures Numbers(Step(s, Cut(i, forward, keep)))
  {
    hide Numbers, NumbersFit, DecisionAt, NextOutgoing, CutWire;
    NumbersAt(s, A, i);
    CutKeepsFit(s.a, s.b, A, i, s.wires[i], forward, keep);
    WireStepNumbers(s, A, s.a, i, CutWire(s.wires[i], forward, keep));
  }

  /** STATE_CONNECTING_READY takes over the numbers of the final reply. */
  lemma ReadyKeepsFit(e: Endpoint, f: Endpoint, p: Side, i: nat, w: Wire)
    requires NumbersFit(e, e, f, p, i, w) && e.wire == Some(i) && PhaseOnWire(e, p, w)
    requires e.phase.ConnectReady? || e.phase.AcceptReady?
    ensures NumbersFit(e, BecomeOpen(e), f, p, i, w)
  {
  }

  lemma ReadyKeepsNumbers(s: State, p: Side)
    requires Inv(s) && Numbers(s) && Enabled(s, Ready(p))
    ensures Numbers(Step(s, Ready(p)))
  {
    hide Inv, Numbers, NumbersFit, DecisionAt, NextOutgoing, PhaseOnWire, Shape;
    var e := Ep(s, p);
    WhereFacts(s, p);
    var i := e.wire.value;
    NumbersAt(s, p, i);
    ReadyKeepsFit(e, Ep(s, Other(p)), p, i, s.wires[i]);
    assert s.wires[i := s.wires[i]] == s.wires;
    WireStepNumbers(s, p, BecomeOpen(e), i, s.wires[i]);
  }

  // ---------------------------------------------------------------- the negotiation

  /** What the invariant of the handshake says about a connector and the packets on its wire. */
  lemma AtOnce(s: State, p: Side, i: nat)
    requires Inv(s) && i < |s.wires|
    ensures Shape(s.wires[i])
    ensures Ep(s, p).wire == Some(i) ==> PhaseOnWire(Ep(s, p), p, s.wires[i]) && NumbersOnWire(Ep(s, p), p, s.wires[i])
  {
    hide SenderOk, Owned, Direction, Shape, PhaseOnWire, NumbersOnWire;
    assert SideOk(s, p);
  }

  /** A packet is taken off, and the session keeps its numbers. */
  lemma TakeKeepsFit(e: Endpoint, e2: Endpoint, f: Endpoint, p: Side, i: nat, w: Wire, w2: Wire)
    requires NumbersFit(e, e, f, p, i, w) && e.wire == Some(i) && SameNumbers(e, e2)
    requires In(w, p).q != [] && w2 == Exchange(w, p, []).(stage := w.stage)
    ensures NumbersFit(e, e2, f, p, i, w2)
  {
    hide NumbersFit, IsTraffic;
    ExchangeChannels(w, p, []);
    assert FewerOn(w2, w);
    FrameFit(e, e2, f, p, i, w, w2);
  }

  /** The numbers of received messages: one end learns the other's, and no global number is involved. */
  lemma InSeqKeepsFit(e: Endpoint, e2: Endpoint, f: Endpoint, p: Side, i: nat, w: Wire, w2: Wire)
    requires NumbersFit(e, e, f, p, i, w) && e.wire == e2.wire == Some(i)
    requires e2.connectSeq == e.connectSeq && e2.globalSeq == e.globalSeq
    requires e2.counter == e.counter && e2.peerGlobalSeq == e.peerGlobalSeq
    requires In(w, p).q != [] && w.stage > 0 && w2.stage > 0
    requires (e.phase.WaitAckSeq? && e2.phase == ConnectReady(e.phase.connectSeq, e.phase.globalSeq)
              && w.connector == p && w2 == Exchange(w, p, [InSeq(e.inSeq)]).(stage := w2.stage))
             || (e.phase.AcceptWaitSeq? && e2.phase.Open? && w.connector != p
                 && w2 == Exchange(w, p, []).(stage := w2.stage))
    ensures NumbersFit(e, e2, f, p, i, w2)
  {
  }

  /** The connector reads the final reply: its number is newer, and the one the acceptor holds. */
  lemma FinalKeepsFit(e: Endpoint, e2: Endpoint, f: Endpoint, p: Side, i: nat, w: Wire, w2: Wire)
    requires NumbersFit(e, e, f, p, i, w) && e.wire == e2.wire == Some(i) && e.phase.WaitReply?
    requires In(w, p).q != [] && IsFinal(In(w, p).q[0]) && w.connector == p && w.stage > 0
    requires var pk := In(w, p).q[0];
             e2 == e.(phase := if pk.SeqReply? then WaitAckSeq(pk.connectSeq, pk.globalSeq)
                               else ConnectReady(pk.connectSeq, pk.globalSeq))
    requires w2.stage > 0 && w2 == Exchange(w, p, []).(stage := w2.stage)
    ensures NumbersFit(e, e2, f, p, i, w2)
  {
    var pk := In(w, p).q[0];
    assert pk in w.back.q && pk in Out(w, Other(p)).q;
    assert NumberOf(pk) <= f.counter;
  }

  /** The connector reads a retry and connects again, with a newer number if that was asked for. */
  lemma RetryKeepsFit(e: Endpoint, e2: Endpoint, f: Endpoint, p: Side, i: nat, w: Wire, w2: Wire, d: Decision)
    requires NumbersFit(e, e, f, p, i, w) && e.wire == Some(i) && e.phase.WaitReply? && w.connector == p
    requires Shape(w) && In(w, p).q != [] && In(w, p).q[0] == Reply(d)
    requires d.RetryGlobal? || d.RetrySession? || d.Wait?
    requires f.wire == Some(i) ==> PhaseOnWire(f, Other(p), w)
    requires e2 == AfterReply(e, Reply(d))
    requires w2 == Exchange(w, p, NextConnect(e2)).(stage := w.stage)
    ensures NumbersFit(e, e2, f, p, i, w2)
  {
    assert Reply(d) in w.back.q;
    assert w.stage == 0;
    assert w.forward.q == [] && w.back.q == [Reply(d)];
  }

  /** The acceptor opens the session: it takes over the connector's number and hands out a newer one of its own. */
  lemma OpenKeepsFit(e: Endpoint, e2: Endpoint, f: Endpoint, p: Side, i: nat, w: Wire, w2: Wire, c: nat, g: nat)
    requires NumbersFit(e, e, f, p, i, w) && w.connector == Other(p) && w.stage == 0 && Shape(w)
    requires w.forward.q != [] && w.forward.q[0] == ConnectMsg(c, g)
    requires f.wire == Some(i) ==> PhaseOnWire(f, Other(p), w) && NumbersOnWire(f, Other(p), w)
    requires f.peerGlobalSeq <= e.counter
    requires e2.connectSeq == c + 1 && e2.peerGlobalSeq == g && e2.counter == e.counter + 1
    requires e2.globalSeq == e.globalSeq && e2.wire == Some(i) && (e2.phase.AcceptWaitSeq? || e2.phase.AcceptReady?)
    requires w2.stage > 0 && w2 == Exchange(w, p, OpenReply(e2)).(stage := w2.stage, adopted := true)
    ensures NumbersFit(e, e2, f, p, i, w2)
  {
    assert ConnectMsg(c, g) in w.forward.q && ConnectMsg(c, g) in Out(w, Other(p)).q;
    assert w.forward.q == [ConnectMsg(c, g)] && w.back.q == [];
    assert NumberOf(ConnectMsg(c, g)) <= f.counter;
    if f.wire == Some(i) {
      assert f.phase.WaitReply?;
      assert NumbersAgree(f.connectSeq, ConnectMsg(c, g));
    }
  }

  lemma OlderPeer(s: State, p: Side)
    requires Numbers(s)
    ensures Ep(s, Other(p)).peerGlobalSeq <= Ep(s, p).counter
  {
    BothSides(s, p);
  }

  lemma OpenIsNewer(e: Endpoint, c: nat, g: nat)
    ensures var e2 := OpenSession(e, c, g);
            && e2.connectSeq == c + 1 && e2.peerGlobalSeq == g && e2.counter == e.counter + 1
            && e2.globalSeq == e.globalSeq && e2.wire == e.wire && (e2.phase.AcceptWaitSeq? || e2.phase.AcceptReady?)
  {
    hide Discard, DiscardCount, Ids, IdList;
  }

  lemma ReceiveConnectKeepsNumbers(s: State, p: Side)
    requires Inv(s) && Numbers(s) && Enabled(s, Receive(p)) && Ep(s, p).phase.AcceptWaitConnect?
    ensures Numbers(Step(s, Receive(p)))
  {
    hide Inv, Numbers, NumbersFit, DecisionAt, NextOutgoing, OpenSession, OpenReply, PhaseOnWire, NumbersOnWire, Shape,
         Exchange;
    var e, f := Ep(s, p), Ep(s, Other(p));
    var i := e.wire.value;
    var w := s.wires[i];
    var c := In(w, p).q[0];
    var e2 := OpenSession(e, c.connectSeq, c.globalSeq);
    var w2 := Exchange(w, p, OpenReply(e2)).(stage := OpenStage(e2));
    NumbersAt(s, p, i);
    AtOnce(s, p, i);
    AtOnce(s, Other(p), i);
    OlderPeer(s, p);
    OpenIsNewer(e, c.connectSeq, c.globalSeq);
    AcceptorsWire(e, p, w);
    ExchangeChannels(w, p, OpenReply(e2));
    OpenKeepsFit(e, e2, f, p, i, w, w2, c.connectSeq, c.globalSeq);
    WireStepNumbers(s, p, e2, i, w2);
  }

  lemma AcceptorsWire(e: Endpoint, p: Side, w: Wire)
    requires PhaseOnWire(e, p, w) && (e.phase.AcceptWaitConnect? || e.phase.Replacing? || e.phase.AcceptWaitSeq?)
    ensures w.connector == Other(p) && w.adopted
    ensures if e.phase.AcceptWaitSeq? then w.stage > 0 else w.stage == 0
  {
  }

  lemma ConnectorsWire(e: Endpoint, p: Side, w: Wire)
    requires PhaseOnWire(e, p, w) && Shape(w) && (e.phase.WaitReply? || e.phase.WaitAckSeq?)
    ensures w.connector == p && (e.phase.WaitAckSeq? ==> w.stage > 0)
    ensures w.back.q != [] && IsFinal(w.back.q[0]) ==> w.stage > 0
  {
    if w.back.q != [] {
      assert w.back.q[0] in w.back.q;
    }
  }

  lemma ReceiveReplyKeepsNumbers(s: State, p: Side)
    requires Inv(s) && Numbers(s) && Enabled(s, Receive(p)) && Ep(s, p).phase.WaitReply?
    ensures Numbers(Step(s, Receive(p)))
  {
    hide Inv, Numbers, NumbersFit, DecisionAt, NextOutgoing, PhaseOnWire, NumbersOnWire, Shape, Exchange, WasReset,
         AfterReply;
    var e, f := Ep(s, p), Ep(s, Other(p));
    var i := e.wire.value;
    var w := s.wires[i];
    var pk := In(w, p).q[0];
    NumbersAt(s, p, i);
    AtOnce(s, p, i);
    AtOnce(s, Other(p), i);
    ConnectorsWire(e, p, w);
    NoResetOnItsWay(s, p);
    var e2 := AfterReply(e, pk);
    if pk.Reply? {
      RetryKeepsFit(e, e2, f, p, i, w, Exchange(w, p, NextConnect(e2)).(stage := w.stage), pk.decision);
      WireStepNumbers(s, p, e2, i, Exchange(w, p, NextConnect(e2)).(stage := w.stage));
    } else {
      AfterFinal(e, pk);
      var stage := StageAfter(w.stage, e, e2, pk);
      FinalKeepsFit(e, e2, f, p, i, w, Exchange(w, p, []).(stage := stage));
      WireStepNumbers(s, p, e2, i, Exchange(w, p, []).(stage := stage));
    }
  }

  lemma AfterFinal(e: Endpoint, pk: Packet)
    requires CanReceive(e, pk) && IsFinal(pk)
    ensures AfterReply(e, pk) == e.(phase := if pk.SeqReply? then WaitAckSeq(pk.connectSeq, pk.globalSeq)
                                             else ConnectReady(pk.connectSeq, pk.globalSeq))
  {
  }

  lemma ReceiveInSeqKeepsNumbers(s: State, p: Side)
    requires Inv(s) && Numbers(s) && Enabled(s, Receive(p))
    requires Ep(s, p).phase.WaitAckSeq? || Ep(s, p).phase.AcceptWaitSeq?
    ensures Numbers(Step(s, Receive(p)))
  {
    hide Inv, Numbers, NumbersFit, DecisionAt, NextOutgoing, PhaseOnWire, NumbersOnWire, Shape, Exchange, Discard,
         DiscardCount, Ids, IdList;
    var e := Ep(s, p);
    var i := e.wire.value;
    var w := s.wires[i];
    var t := Step(s, Receive(p));
    NumbersAt(s, p, i);
    AtOnce(s, p, i);
    if e.phase.WaitAckSeq? {
      ConnectorsWire(e, p, w);
    } else {
      AcceptorsWire(e, p, w);
    }
    InSeqKeepsFit(e, Ep(t, p), Ep(s, Other(p)), p, i, w, t.wires[i]);
    WireStepNumbers(s, p, Ep(t, p), i, t.wires[i]);
  }

  lemma ReceiveTrafficKeepsNumbers(s: State, p: Side)
    requires Numbers(s) && Enabled(s, Receive(p)) && Ep(s, p).phase.Open?
    ensures Numbers(Step(s, Receive(p)))
  {
    hide Numbers, NumbersFit, DecisionAt, NextOutgoing, Exchange, AckCount, Ids, IdList;
    var e := Ep(s, p);
    var i := e.wire.value;
    var t := Step(s, Receive(p));
    NumbersAt(s, p, i);
    ExchangeChannels(s.wires[i], p, []);
    TakeKeepsFit(e, Ep(t, p), Ep(s, Other(p)), p, i, s.wires[i], t.wires[i]);
    WireStepNumbers(s, p, Ep(t, p), i, t.wires[i]);
  }

  lemma ReceiveKeepsNumbers(s: State, p: Side)
    requires Inv(s) && Numbers(s) && Enabled(s, Receive(p))
    ensures Numbers(Step(s, Receive(p)))
  {
    hide Inv, Numbers, Step, DecisionAt, NextOutgoing;
    var e := Ep(s, p);
    if e.phase.Open? {
      ReceiveTrafficKeepsNumbers(s, p);
    } else if e.phase.WaitReply? {
      ReceiveReplyKeepsNumbers(s, p);
    } else if e.phase.AcceptWaitConnect? {
      ReceiveConnectKeepsNumbers(s, p);
    } else {
      ReceiveInSeqKeepsNumbers(s, p);
    }
  }

  /** The swap is over: the peer is asked for a number above the one it had. */
  lemma FinishKeepsFit(e: Endpoint, e2: Endpoint, f: Endpoint, p: Side, i: nat, w: Wire)
    requires NumbersFit(e, e, f, p, i, w) && e.wire == e2.wire == Some(i) && PhaseOnWire(e, p, w)
    requires e.phase.Replacing? && e2.phase.AcceptWaitConnect? && e2.hardReset == e.hardReset
    requires e2.connectSeq == e.connectSeq && e2.globalSeq == e.globalSeq
    requires e2.counter == e.counter && e2.peerGlobalSeq == e.peerGlobalSeq
    ensures NumbersFit(e, e2, f, p, i, WithOut(w, p, Push(Out(w, p), [Reply(RetryGlobal(e.peerGlobalSeq))])))
  {
  }

  lemma FinishReplaceKeepsNumbers(s: State, p: Side)
    requires Inv(s) && Numbers(s) && Enabled(s, FinishReplace(p))
    ensures Numbers(Step(s, FinishReplace(p)))
  {
    hide Inv, Numbers, NumbersFit, DecisionAt, NextOutgoing, PhaseOnWire, NumbersOnWire, Shape, Requeue, WithOut, Push;
    var e := Ep(s, p);
    var i := e.wire.value;
    var t := Step(s, FinishReplace(p));
    NumbersAt(s, p, i);
    AtOnce(s, p, i);
    FinishKeepsFit(e, Ep(t, p), Ep(s, Other(p)), p, i, s.wires[i]);
    WireStepNumbers(s, p, Ep(t, p), i, t.wires[i]);
  }

  // ---------------------------------------------------------------- a new socket, and its acceptor

  /** The session moves to wire i, where nothing is under way. */
  lemma AdoptKeepsFit(e: Endpoint, e2: Endpoint, f: Endpoint, p: Side, i: nat, w: Wire)
    requires NumbersFit(e, e, f, p, i, w) && w.connector == Other(p) && w.stage == 0 && In(w, p).q != []
    requires e2.wire == Some(i) && e2.phase.Replacing? && e2.globalSeq == e.globalSeq
    requires e2.counter == e.counter && e2.peerGlobalSeq == e.peerGlobalSeq
    requires Shape(w) && w.forward.q[0].ConnectMsg?
    requires f.wire == Some(i) ==> NumbersOnWire(f, Other(p), w)
    requires e2.hardReset <==> IsNewFor(e2, w.forward.q[0].connectSeq)
    ensures NumbersFit(e, e2, f, p, i, Exchange(w, p, []).(adopted := true))
  {
    assert w.forward.q == [w.forward.q[0]];
    assert w.forward.q[0] in w.forward.q;
    if f.wire == Some(i) && f.phase.WaitReply? {
      assert NumbersAgree(f.connectSeq, w.forward.q[0]);
    }
  }

  /** An answer on a wire that is not p's own. */
  lemma AnswerKeepsFit(e: Endpoint, f: Endpoint, p: Side, i: nat, w: Wire, d: Decision)
    requires NumbersFit(e, e, f, p, i, w) && w.connector == Other(p) && w.stage == 0 && In(w, p).q != []
    requires e.wire != Some(i)
    ensures NumbersFit(e, e, f, p, i, Exchange(w, p, [Reply(d)]))
  {
  }

  /** A reset is noted exactly if the connect message starts at 0 and the session does not. */
  lemma AdoptClaims(s: State, i: nat, exact: bool)
    requires Inv(s) && Enabled(s, Accept(i, exact)) && !Resets(s, Accept(i, exact))
    requires DecisionAt(s, Other(s.wires[i].connector), exact, s.wires[i].forward.q[0]).Replace?
    ensures var p := Other(s.wires[i].connector);
            var c := s.wires[i].forward.q[0];
            var e2 := Adopt(Ep(s, p), DecisionAt(s, p, exact, c).hardReset, Pol(s.cfg, p).resetcheck, i);
            && e2.wire == Some(i) && e2.phase.Replacing? && e2.globalSeq == Ep(s, p).globalSeq
            && e2.counter == Ep(s, p).counter && e2.peerGlobalSeq == Ep(s, p).peerGlobalSeq
            && (e2.hardReset <==> IsNewFor(e2, c.connectSeq))
  {
    hide Owned, Direction, HandshakeOk, Window, WasReset;
    assert SideOk(s, Other(s.wires[i].connector));
  }

  lemma AcceptKeepsNumbers(s: State, i: nat, exact: bool)
    requires Inv(s) && Numbers(s) && Enabled(s, Accept(i, exact)) && !Resets(s, Accept(i, exact))
    ensures Numbers(Step(s, Accept(i, exact)))
  {
    hide Inv, Numbers, NumbersFit, DecisionAt, NextOutgoing, PhaseOnWire, NumbersOnWire, Shape, Exchange, OpenSession,
         OpenReply, OpenStage, WasReset, Adopt, Resets, IsNewFor;
    var w := s.wires[i];
    var p := Other(w.connector);
    var e, f := Ep(s, p), Ep(s, Other(p));
    var d := DecisionAt(s, p, exact, w.forward.q[0]);
    UnadoptedFacts(s, i);
    NumbersAt(s, p, i);
    AtOnce(s, Other(p), i);
    if d.Replace? {
      var e2 := Adopt(e, d.hardReset, Pol(s.cfg, p).resetcheck, i);
      AdoptClaims(s, i, exact);
      AdoptKeepsFit(e, e2, f, p, i, w);
      WireStepNumbers(s, p, e2, i, Exchange(w, p, []).(adopted := true));
    } else if d.Open? {
      AcceptOpenKeepsNumbers(s, i, exact);
    } else {
      AnswerKeepsFit(e, f, p, i, w, d);
      WireStepNumbers(s, p, e, i, Exchange(w, p, [Reply(d)]));
    }
  }

  lemma AcceptOpenKeepsNumbers(s: State, i: nat, exact: bool)
    requires Inv(s) && Numbers(s) && Enabled(s, Accept(i, exact))
    requires DecisionAt(s, Other(s.wires[i].connector), exact, s.wires[i].forward.q[0]).Open?
    ensures Numbers(Step(s, Accept(i, exact)))
  {
    hide Inv, Numbers, NumbersFit, DecisionAt, NextOutgoing, PhaseOnWire, NumbersOnWire, Shape, Exchange, OpenSession,
         OpenReply;
    var w := s.wires[i];
    var p := Other(w.connector);
    var e, f := Ep(s, p), Ep(s, Other(p));
    var c := w.forward.q[0];
    var e2 := OpenSession(e, c.connectSeq, c.globalSeq).(wire := Some(i));
    UnadoptedFacts(s, i);
    NumbersAt(s, p, i);
    AtOnce(s, p, i);
    AtOnce(s, Other(p), i);
    OlderPeer(s, p);
    OpenIsNewer(e, c.connectSeq, c.globalSeq);
    var w2 := Exchange(w, p, OpenReply(e2)).(adopted := true, stage := OpenStage(e2));
    OpenKeepsFit(e, e2, f, p, i, w, w2, c.connectSeq, c.globalSeq);
    WireStepNumbers(s, p, e2, i, w2);
  }

  /** A socket with nothing on it, which nobody holds. */
  lemma FreshWireKeepsNumbers(s: State, p: Side)
    requires Inv(s) && Numbers(s)
    ensures Numbers(s.(wires := s.wires + [FreshWire(p)]))
  {
    hide Inv, Newer, Latest, Agree;
    var t := s.(wires := s.wires + [FreshWire(p)]);
    forall q: Side ensures NumbersOk(t, q) {
      BothSides(s, q);
      WhereFacts(s, q);
      assert Ep(t, q) == Ep(s, q) && Ep(t, Other(q)) == Ep(s, Other(q));
      forall j | 0 <= j < |t.wires|
        ensures EndOk(Ep(t, q), Ep(t, Other(q)), q, j, t.wires[j]) && AtMost(Out(t.wires[j], q).q, Ep(t, q).counter)
      {
        if j < |s.wires| {
          assert EndOk(Ep(s, q), Ep(s, Other(q)), q, j, s.wires[j]);
        }
      }
    }
  }

  lemma AttemptFit(e: Endpoint, e2: Endpoint, f: Endpoint, p: Side, i: nat)
    requires NumbersFit(e, e, f, p, i, FreshWire(p)) && f.wire != Some(i)
    requires e2 == e.(phase := WaitReply, wire := Some(i), globalSeq := NextGlobalSeq(e.counter, 0),
                      counter := NextGlobalSeq(e.counter, 0))
    ensures NumbersFit(e, e2, f, p, i,
                       FreshWire(p).(forward := Channel([ConnectMsg(e.connectSeq, e2.globalSeq)], true)))
  {
  }

  lemma AttemptKeepsNumbers(s: State, p: Side)
    requires Inv(s) && Numbers(s) && Enabled(s, Attempt(p))
    ensures Numbers(Step(s, Attempt(p)))
  {
    hide Inv, Numbers, NumbersFit, DecisionAt, NextOutgoing;
    var e := Ep(s, p);
    var i := |s.wires|;
    var s1 := s.(wires := s.wires + [FreshWire(p)]);
    var e2 := Ep(Step(s, Attempt(p)), p);
    var w2 := FreshWire(p).(forward := Channel([ConnectMsg(e.connectSeq, e2.globalSeq)], true));
    FreshWireKeepsNumbers(s, p);
    NumbersAt(s1, p, i);
    WhereFacts(s, Other(p));
    AttemptFit(e, e2, Ep(s, Other(p)), p, i);
    WireStepNumbers(s1, p, e2, i, w2);
    assert s1.wires[i := w2] == s.wires + [w2];
  }

  lemma StepKeepsNumbers(s: State, a: Action)
    requires Inv(s) && Numbers(s) && Enabled(s, a) && !Resets(s, a)
    ensures Numbers(Step(s, a))
  {
    hide Inv, Numbers, Step, Enabled, Resets;
    match a {
      case Attempt(p) => AttemptKeepsNumbers(s, p);
      case Accept(i, exact) => AcceptKeepsNumbers(s, i, exact);
      case FinishReplace(p) => FinishReplaceKeepsNumbers(s, p);
      case Receive(p) => ReceiveKeepsNumbers(s, p);
      case Ready(p) => ReadyKeepsNumbers(s, p);
      case Write(p) => WriteKeepsNumbers(s, p);
      case SendAck(p) => SendAckKeepsNumbers(s, p);
      case Cut(i, forward, keep) => CutKeepsNumbers(s, i, forward, keep);
      case _ => LocalKeepsNumbers(s, a);
    }
  }

  // ---------------------------------------------------------------- what holds in every run

  lemma {:induction false} RunKeepsNumbers(s: State, acts: seq<Action>, t: State)
    requires Good(s) && Numbers(s) && Unreset(s, acts) && Run(s, acts, t)
    ensures Numbers(t)
    decreases |acts|
  {
    hide Inv, HardOk, Numbers, Step, Enabled, Resets;
    if acts != [] {
      StepKeepsGood(s, acts[0]);
      StepKeepsNumbers(s, acts[0]);
      RunKeepsNumbers(Step(s, acts[0]), acts[1..], t);
    }
  }

  lemma ReachableNumbers(cfg: Config, t: State)
    requires Reachable(cfg, t)
    ensures Good(t) && Numbers(t)
  {
    hide Inv, Numbers, Run, Unreset;
    ReachableInv(cfg, t);
    var acts :| Unreset(Init(cfg), acts) && Run(Init(cfg), acts, t);
    InitInv(cfg);
    InitNumbers(cfg);
    RunKeepsNumbers(Init(cfg), acts, t);
  }

  /**
   Both ends of an open session agree: they have one connect_seq, the acceptor holds the number of the
   connector's last connect message, and the connector the one the acceptor drew when it opened.
   */
  lemma OpenPairAgrees(cfg: Config, t: State, p: Side)
    requires Reachable(cfg, t) && Attached(t, p) && Ep(t, Other(p)).wire == Ep(t, p).wire
    requires Ep(t, p).phase.Open? && Ep(t, Other(p)).phase.Open? && t.wires[Ep(t, p).wire.value].connector == p
    ensures Ep(t, p).connectSeq == Ep(t, Other(p)).connectSeq
    ensures Ep(t, Other(p)).peerGlobalSeq == Ep(t, p).globalSeq
    ensures Ep(t, p).peerGlobalSeq == Ep(t, Other(p)).counter
  {
    hide Inv, HardOk, Reachable, Newer, Latest, Older, Shape;
    ReachableNumbers(cfg, t);
    WhereFacts(t, p);
    BothSides(t, p);
    var i := Ep(t, p).wire.value;
    assert EndOk(Ep(t, p), Ep(t, Other(p)), p, i, t.wires[i]);
  }

  /**
   What the connector does with an answer that does not open the session: asked for a newer global number
   it draws one above that and above all its own, told of a higher connect_seq it takes that one, and
   either way it connects again on the same socket with both; told to wait it sends nothing and waits.
   */
  lemma RetryIsFollowed(cfg: Config, t: State, p: Side, d: Decision)
    requires Reachable(cfg, t) && Enabled(t, Receive(p))
    requires In(t.wires[Ep(t, p).wire.value], p).q[0] == Reply(d)
    ensures var i := Ep(t, p).wire.value;
            var e, e2 := Ep(t, p), Ep(Step(t, Receive(p)), p);
            && (d.RetryGlobal? || d.RetrySession? || d.Wait?)
            && (d.RetryGlobal? ==> e2.globalSeq > d.globalSeq && e2.globalSeq > e.counter && e2.globalSeq == e2.counter
                                   && e2.connectSeq == e.connectSeq)
            && (d.RetrySession? ==> e2.connectSeq == d.connectSeq > e.connectSeq && e2.globalSeq == e.globalSeq)
            && (d.Wait? ==> e2 == e.(phase := RaceWait))
            && (!d.Wait? ==> e2.phase.WaitReply? && e2.wire == e.wire)
            && Step(t, Receive(p)).wires[i].forward
               == Push(t.wires[i].forward, if d.Wait? then [] else [ConnectMsg(e2.connectSeq, e2.globalSeq)])
  {
    hide Inv, HardOk, Reachable, NumbersOk, PhaseOnWire, Shape, DecisionAt, NextOutgoing, Exchange, WasReset,
         NumbersOnWire;
    ReachableNumbers(cfg, t);
    var e := Ep(t, p);
    var i := e.wire.value;
    AtOnce(t, p, i);
    ConnectorsWire(e, p, t.wires[i]);
    NoResetOnItsWay(t, p);
    RaisesOnWire(e, p, t.wires[i], d);
    ExchangeChannels(t.wires[i], p, NextConnect(AfterReply(e, Reply(d))));
  }

  lemma RaisesOnWire(e: Endpoint, p: Side, w: Wire, d: Decision)
    requires NumbersOnWire(e, p, w) && e.phase.WaitReply? && w.connector == p
    requires In(w, p).q != [] && In(w, p).q[0] == Reply(d)
    ensures d.RetrySession? ==> d.connectSeq > e.connectSeq
  {
    assert NumbersAgree(e.connectSeq, In(w, p).q[0]);
  }

  /**
   Which answer opens a session again: the session that reads the connect message of the peer at the other
   end of its socket answers READY and starts over exactly if the peer starts at 0 and it does not;
   otherwise it answers SEQ and the number of the last message it has received.
   */
  lemma ReadyIffPeerIsNew(cfg: Config, t: State, p: Side, c: nat, g: nat)
    requires Reachable(cfg, t) && Enabled(t, Receive(p))
    requires Ep(t, p).phase.AcceptWaitConnect? && In(t.wires[Ep(t, p).wire.value], p).q[0] == ConnectMsg(c, g)
    ensures var i := Ep(t, p).wire.value;
            var e, e2 := Ep(t, p), Ep(Step(t, Receive(p)), p);
            var answer := if c == 0 && e.connectSeq > 0 then [ReadyReply(1, e.counter + 1)]
                          else [SeqReply(c + 1, e.counter + 1), InSeq(e.inSeq)];
            && Step(t, Receive(p)).wires[i].back == Push(t.wires[i].back, answer)
            && e2.connectSeq == c + 1 && e2.peerGlobalSeq == g && e2.counter == e.counter + 1
            && (if c == 0 && e.connectSeq > 0 then e2.phase.AcceptReady? && e2.inSeq == 0 else e2.phase.AcceptWaitSeq?)
  {
    hide Inv, HardOk, Reachable, NumbersFit, Numbers, Newer, Latest, Agree, Shape, DecisionAt, NextOutgoing, Received,
         Exchange;
    ReachableNumbers(cfg, t);
    var e := Ep(t, p);
    var i := e.wire.value;
    AtOnce(t, p, i);
    AcceptorsWire(e, p, t.wires[i]);
    BothSides(t, p);
    assert EndOk(e, Ep(t, Other(p)), p, i, t.wires[i]) by { EndAt(t, p, i); }
    assert ConnectMsg(c, g) in t.wires[i].forward.q;
    OpensBy(e, c, g);
    ExchangeChannels(t.wires[i], p, Response(e, Received(e, ConnectMsg(c, g)), ConnectMsg(c, g)));
  }

  lemma EndAt(s: State, p: Side, i: nat)
    requires Numbers(s) && i < |s.wires|
    ensures EndOk(Ep(s, p), Ep(s, Other(p)), p, i, s.wires[i])
  {
    hide EndOk;
    BothSides(s, p);
  }

  lemma OpensBy(e: Endpoint, c: nat, g: nat)
    requires CanReceive(e, ConnectMsg(c, g))
    ensures var e2 := Received(e, ConnectMsg(c, g));
            && e2.connectSeq == c + 1 && e2.peerGlobalSeq == g && e2.counter == e.counter + 1
            && (if e.hardReset then e2.phase.AcceptReady? && e2.inSeq == 0 else e2.phase.AcceptWaitSeq?)
            && Response(e, e2, ConnectMsg(c, g))
               == if e.hardReset then [ReadyReply(c + 1, e.counter + 1)]
                  else [SeqReply(c + 1, e.counter + 1), InSeq(e.inSeq)]
  {
    hide Discard, DiscardCount, Ids, IdList;
  }

  /**
   The global number a session has accepted from its peer never falls, and each time it is opened
   again, from either end, the new number is above the one before.
   */
  lemma PeerNumberRises(cfg: Config, t: State, a: Action, q: Side)
    requires Reachable(cfg, t) && Enabled(t, a)
    ensures var e, e2 := Ep(t, q), Ep(Step(t, a), q);
            && e2.peerGlobalSeq >= e.peerGlobalSeq
            && (a == Receive(q) && e.phase.AcceptWaitConnect? ==> e2.peerGlobalSeq > e.peerGlobalSeq)
            && (a == Ready(q) && e.phase.ConnectReady? ==> e2.peerGlobalSeq > e.peerGlobalSeq)
  {
    hide Inv, HardOk, Reachable, Step, Enabled, Numbers;
    ReachableNumbers(cfg, t);
    if a == Receive(q) {
      ReceivedNumber(t, q);
    } else if a == Ready(q) {
      ReadyNumber(t, q);
    } else if a.Accept? {
      AcceptedNumber(t, a.w, a.exact, q);
    } else {
      OtherNumber(t, a, q);
    }
  }

  lemma ReceivedNumber(s: State, q: Side)
    requires Inv(s) && Numbers(s) && Enabled(s, Receive(q))
    ensures var e, e2 := Ep(s, q), Ep(Step(s, Receive(q)), q);
            if e.phase.AcceptWaitConnect? then e2.peerGlobalSeq > e.peerGlobalSeq
            else e2.peerGlobalSeq == e.peerGlobalSeq
  {
    hide Inv, Numbers, DecisionAt, NextOutgoing, Exchange, Discard, DiscardCount, Ids, IdList, AckCount, Queued,
         StartOver, NumbersOnWire;
    var e := Ep(s, q);
    var i := e.wire.value;
    NumbersAt(s, q, i);
    AtOnce(s, q, i);
    hide AtMost;
    assert In(s.wires[i], q).q[0] in In(s.wires[i], q).q;
  }

  lemma ReadyNumber(s: State, q: Side)
    requires Inv(s) && Numbers(s) && Enabled(s, Ready(q))
    ensures var e, e2 := Ep(s, q), Ep(Step(s, Ready(q)), q);
            if e.phase.ConnectReady? then e2.peerGlobalSeq > e.peerGlobalSeq else e2.peerGlobalSeq == e.peerGlobalSeq
  {
    hide Inv, Numbers, AtMost, DecisionAt, NextOutgoing, Shape;
    WhereFacts(s, q);
    NumbersAt(s, q, Ep(s, q).wire.value);
  }

  lemma AcceptedNumber(s: State, i: nat, exact: bool, q: Side)
    requires Inv(s) && Numbers(s) && Enabled(s, Accept(i, exact))
    ensures Ep(Step(s, Accept(i, exact)), q).peerGlobalSeq >= Ep(s, q).peerGlobalSeq
  {
    hide Numbers, DecisionAt, NextOutgoing, Exchange, Ids, Queued, StartOver, OpenReply, Owned, Direction, HandshakeOk,
         Window;
    assert SideOk(s, q);
  }

  lemma OtherNumber(s: State, a: Action, q: Side)
    requires Enabled(s, a) && !a.Accept? && a != Receive(q) && a != Ready(q)
    ensures Ep(Step(s, a), q).peerGlobalSeq == Ep(s, q).peerGlobalSeq
  {
    hide Received, Enqueue, Requeue, FaultPhase, FaultBumps, Exchange, DecisionAt, NextOutgoing, Response, StageAfter;
  }

  /**
   A new attempt is newer than everything its side has on any wire and than what the peer has accepted
   from it; so it is refused as too old only while the peer is busy replacing its socket.
   */
  lemma AttemptIsNewest(cfg: Config, t: State, p: Side, exact: bool)
    requires Reachable(cfg, t) && Enabled(t, Attempt(p))
    ensures var u := Step(t, Attempt(p));
            var e, f := Ep(u, p), Ep(u, Other(p));
            && u.wires == t.wires + [FreshWire(p).(forward := Channel([ConnectMsg(e.connectSeq, e.globalSeq)], true))]
            && e.connectSeq == Ep(t, p).connectSeq && e.wire == Some(|t.wires|)
            && e.globalSeq > f.peerGlobalSeq
            && (forall i, k | 0 <= i < |t.wires| && 0 <= k < |Out(t.wires[i], p).q| ::
                  e.globalSeq > NumberOf(Out(t.wires[i], p).q[k]))
            && (DecisionAt(u, Other(p), exact, ConnectMsg(e.connectSeq, e.globalSeq)).RetryGlobal? ==> f.replacing)
  {
    hide Inv, HardOk, Reachable, NextOutgoing, EndOk, DecideSession;
    ReachableNumbers(cfg, t);
    BothSides(t, p);
    forall i, k | 0 <= i < |t.wires| && 0 <= k < |Out(t.wires[i], p).q|
      ensures Ep(t, p).counter >= NumberOf(Out(t.wires[i], p).q[k])
    {
      assert AtMost(Out(t.wires[i], p).q, Ep(t, p).counter);
      assert Out(t.wires[i], p).q[k] in Out(t.wires[i], p).q;
    }
    SessionAnswers(ExistingOf(Ep(t, Other(p)), Pol(t.cfg, Other(p)), exact), AcceptorOf(t.cfg, Other(p), false),
                   N.Connect(Ep(t, p).connectSeq, Ep(t, p).counter + 1));
  }

  lemma SessionAnswers(existing: Option<Existing>, acc: Acceptor, c: N.Connect)
    ensures Decide(existing, acc, c).RetryGlobal? ==>
              existing.Some? && (existing.value.replacing || c.globalSeq < existing.value.peerGlobalSeq)
  {
  }
}
