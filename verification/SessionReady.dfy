/**
 The READY reply: a session that was told of a hard reset of its peer opens without an exchange of
 numbers. The invariant here says why that is right while no session is reset: the peer that claims a
 new session has exchanged nothing yet.
 */
module SessionReady {
  import opened Wrappers
  import opened SendQueue
  import opened Endpoints
  import opened N = Negotiation
  import opened Session
  import opened SessionSafety
  import opened SessionSteps

  /** If f has left wire i for another one, it is still negotiating there. */
  predicate StillNegotiating(f: Endpoint, q: Side, i: nat, wires: seq<Wire>) {
    f.wire.Some? && f.wire.value != i ==>
      && f.wire.value < |wires|
      && var w := wires[f.wire.value];
         && w.stage == 0
         && if w.connector == q then !w.adopted && (f.phase.WaitReply? || f.phase.RaceWait?)
            else w.forward.q == [] && (f.phase.Replacing? || f.phase.AcceptWaitConnect?)
  }

  /** The peer is on wire i, or a connect message it sent there is still on its way. */
  predicate Pending(f: Endpoint, i: nat, wires: seq<Wire>)
    requires i < |wires|
  {
    f.wire == Some(i) || wires[i].forward.q != []
  }

  ghost predicate PeerIsNew(e: Endpoint, f: Endpoint, q: Side, wires: seq<Wire>) {
    e.hardReset && e.wire.Some? && e.wire.value < |wires| && Pending(f, e.wire.value, wires) ==>
      Virgin(f) && !f.phase.Absent? && StillNegotiating(f, q, e.wire.value, wires)
  }

  ghost predicate HardOk(s: State, p: Side) {
    PeerIsNew(Ep(s, p), Ep(s, Other(p)), Other(p), s.wires)
  }

  /** What the invariant says about the side that was told of a reset, and about the other one. */
  lemma HardFacts(s: State, p: Side)
    requires Inv(s)
    ensures var e := Ep(s, p);
            e.hardReset ==>
              && e.replacing && (e.phase.Replacing? || e.phase.AcceptWaitConnect?)
              && e.wire.Some? && e.wire.value < |s.wires|
              && var w := s.wires[e.wire.value];
                 w.connector == Other(p) && w.stage == 0 && w.adopted && (forall pk | pk in w.back.q :: pk.Reply?)
  {
    hide Window, Owned, Direction, NumbersOnWire;
    assert SideOk(s, p);
  }

  /** Where a session is, read off its phase. */
  lemma WhereFacts(s: State, q: Side)
    requires Inv(s)
    ensures var f := Ep(s, q);
            && (f.wire.Some? ==> f.wire.value < |s.wires| && PhaseOnWire(f, q, s.wires[f.wire.value])
                                 && Shape(s.wires[f.wire.value]))
            && (f.wire.None? ==> f.phase.Absent? || f.phase.Standby? || f.phase.Connecting?)
  {
    hide SenderOk, Owned, Direction, NumbersOnWire, PhaseOnWire, Shape;
    assert SideOk(s, q);
  }

  /** A wire nobody adopted carries at most one packet of the negotiation. */
  lemma UnadoptedFacts(s: State, i: nat)
    requires Inv(s) && i < |s.wires| && !s.wires[i].adopted
    ensures s.wires[i].stage == 0 && |s.wires[i].forward.q| + |s.wires[i].back.q| <= 1
    ensures Ep(s, Other(s.wires[i].connector)).wire != Some(i)
  {
    WhereFacts(s, Other(s.wires[i].connector));
    hide SenderOk, Owned, Direction, HandshakeOk;
    assert Shape(s.wires[i]);
  }

  // ---------------------------------------------------------------- the steps of the side that was told

  /** While it is replacing, a side only answers RETRY_GLOBAL to other sockets. */
  lemma ReplacingAnswers(s: State, i: nat, exact: bool)
    requires Inv(s) && Enabled(s, Accept(i, exact))
    ensures var q := Other(s.wires[i].connector);
            Ep(s, q).replacing ==>
              DecisionAt(s, q, exact, s.wires[i].forward.q[0]) == RetryGlobal(Ep(s, q).peerGlobalSeq)
  {
    hide Window, Owned, Direction, NumbersOnWire;
    assert SideOk(s, Other(s.wires[i].connector));
  }

  /** A hard reset is claimed by a connector that has never connected, hence has exchanged nothing. */
  lemma HardResetIsByNewPeer(s: State, i: nat, exact: bool)
    requires Inv(s) && Enabled(s, Accept(i, exact))
    requires DecisionAt(s, Other(s.wires[i].connector), exact, s.wires[i].forward.q[0]) == Replace(true)
    requires Ep(s, s.wires[i].connector).wire == Some(i)
    ensures Virgin(Ep(s, s.wires[i].connector)) && !Ep(s, s.wires[i].connector).phase.Absent?
  {
    hide Window, Owned, Direction;
    var f := Ep(s, s.wires[i].connector);
    assert SideOk(s, s.wires[i].connector);
    assert f.phase.WaitReply?;
    assert s.wires[i].forward.q[0] in s.wires[i].forward.q;
    assert NumbersAgree(f.connectSeq, s.wires[i].forward.q[0]);
  }

  lemma AcceptKeepsOwnHard(s: State, i: nat, exact: bool)
    requires Inv(s) && Enabled(s, Accept(i, exact)) && !Resets(s, Accept(i, exact))
    requires HardOk(s, Other(s.wires[i].connector))
    ensures HardOk(Step(s, Accept(i, exact)), Other(s.wires[i].connector))
  {
    hide Inv, DecisionAt, OpenReply, WasReset, NextGlobalSeq, Virgin;
    var w := s.wires[i];
    var p := Other(w.connector);
    var e := Ep(s, p);
    var d := DecisionAt(s, p, exact, w.forward.q[0]);
    ReplacingAnswers(s, i, exact);
    HardFacts(s, p);
    WhereFacts(s, Other(p));
    hide PhaseOnWire;
    UnadoptedFacts(s, i);
    if d == Replace(true) && Ep(s, Other(p)).wire == Some(i) {
      HardResetIsByNewPeer(s, i, exact);
    }
  }

  /** The peer f adopts, or opens on, a wire k that e's side had opened. */
  lemma MoveKeepsPeerNew(e: Endpoint, f: Endpoint, f2: Endpoint, q: Side, wires: seq<Wire>, k: nat, w2: Wire)
    requires PeerIsNew(e, f, q, wires) && k < |wires| && e.wire != Some(k)
    requires f2.wire == Some(k)
    requires f.phase.Absent? || ((Virgin(f) ==> Virgin(f2)) && f2.phase.Replacing? && w2.connector != q && w2.stage == 0
                                 && w2.forward.q == [])
    ensures PeerIsNew(e, f2, q, wires[k := w2])
  {
  }

  lemma AnswerKeepsPeerNew(e: Endpoint, f: Endpoint, q: Side, wires: seq<Wire>, k: nat, w2: Wire)
    requires PeerIsNew(e, f, q, wires) && k < |wires| && e.wire != Some(k) && f.wire != Some(k)
    ensures PeerIsNew(e, f, q, wires[k := w2])
  {
  }

  lemma AcceptKeepsPeerHard(s: State, i: nat, exact: bool)
    requires Inv(s) && Enabled(s, Accept(i, exact)) && !Resets(s, Accept(i, exact))
    requires HardOk(s, s.wires[i].connector)
    ensures HardOk(Step(s, Accept(i, exact)), s.wires[i].connector)
  {
    hide Inv, Decide, OpenReply, OpenSession, WasReset, Shape, PeerIsNew, PhaseOnWire, NextOutgoing;
    var w := s.wires[i];
    var q := Other(w.connector);
    var e, f := Ep(s, w.connector), Ep(s, q);
    var t := Step(s, Accept(i, exact));
    HardFacts(s, w.connector);
    UnadoptedFacts(s, i);
    var d := DecisionAt(s, q, exact, w.forward.q[0]);
    if !e.hardReset {
      NotTold(e, Ep(t, q), q, t.wires);
    } else if d.Open? || d.Replace? {
      MoveKeepsPeerNew(e, f, Ep(t, q), q, s.wires, i, t.wires[i]);
    } else {
      AnswerKeepsPeerNew(e, f, q, s.wires, i, t.wires[i]);
    }
  }

  lemma NotTold(e: Endpoint, f: Endpoint, q: Side, wires: seq<Wire>)
    requires !e.hardReset
    ensures PeerIsNew(e, f, q, wires)
  {
  }

  lemma AttemptKeepsHard(s: State, p: Side, q: Side)
    requires Inv(s) && Enabled(s, Attempt(p)) && HardOk(s, q)
    ensures HardOk(Step(s, Attempt(p)), q)
  {
    hide Inv, NextGlobalSeq;
    HardFacts(s, q);
    WhereFacts(s, p);
    WhereFacts(s, Other(p));
    hide PhaseOnWire;
  }

  lemma FinishReplaceKeepsHard(s: State, p: Side, q: Side)
    requires Inv(s) && Enabled(s, FinishReplace(p)) && HardOk(s, q)
    ensures HardOk(Step(s, FinishReplace(p)), q)
  {
    hide Inv, Requeue;
    HardFacts(s, q);
    WhereFacts(s, p);
  }

  lemma BreakKeepsHard(s: State, p: Side, torn: bool, q: Side)
    requires Inv(s) && Enabled(s, Break(p, torn)) && HardOk(s, q)
    ensures HardOk(Step(s, Break(p, torn)), q)
  {
    hide Inv, Requeue;
    HardFacts(s, q);
    WhereFacts(s, p);
  }

  lemma CutKeepsHard(s: State, i: nat, forward: bool, keep: nat, q: Side)
    requires Inv(s) && Enabled(s, Cut(i, forward, keep)) && HardOk(s, q)
    ensures HardOk(Step(s, Cut(i, forward, keep)), q)
  {
    hide Inv;
    HardFacts(s, q);
  }

  /** A packet does not move the session, and once a connect message is read the claim is dealt with. */
  lemma ReceivedFacts(e: Endpoint, pk: Packet)
    requires CanReceive(e, pk) && (e.hardReset ==> e.phase.Replacing? || e.phase.AcceptWaitConnect?)
    ensures var e2 := Received(e, pk);
            e2.wire == e.wire && !e2.phase.Absent? && !e2.hardReset
  {
    hide AfterRetry, Discard, DiscardCount, Ids, IdList, Queued, AckCount;
  }

  lemma ReceiveKeepsOwnHard(s: State, p: Side)
    requires Inv(s) && Enabled(s, Receive(p))
    ensures HardOk(Step(s, Receive(p)), p)
  {
    hide Inv, Received, Exchange, CanReceive;
    HardFacts(s, p);
    ReceivedFacts(Ep(s, p), In(s.wires[Ep(s, p).wire.value], p).q[0]);
  }

  lemma ReplyKeepsPeerNew(e: Endpoint, f: Endpoint, f2: Endpoint, p: Side, wires: seq<Wire>, w2: Wire)
    requires f.wire.Some? && f.wire.value < |wires|
    requires e.hardReset && e.wire.Some? && e.wire.value < |wires| && PeerIsNew(e, f, p, wires)
    requires var w := wires[f.wire.value];
             && Shape(w) && PhaseOnWire(f, p, w)
             && In(w, p).q != [] && CanReceive(f, In(w, p).q[0])
             && (f.wire == e.wire ==> w.connector == p && w.stage == 0)
             && w2.connector == w.connector && w2.adopted == w.adopted
             && (In(w, p).q[0].Reply? ==>
                   w2.stage == w.stage && f2 == Received(f, In(w, p).q[0]) && !In(w, p).q[0].decision.ResetSession?)
    requires f2.wire == f.wire && !f2.phase.Absent?
    ensures PeerIsNew(e, f2, p, wires[f.wire.value := w2])
  {
    hide AfterRetry, WasReset;
    var w := wires[f.wire.value];
    if Pending(f, e.wire.value, wires) {
      assert w.stage == 0 && In(w, p).q[0] in In(w, p).q;
    }
  }

  lemma NoResetOnItsWay(s: State, p: Side)
    requires Inv(s) && Enabled(s, Receive(p))
    ensures var pk := In(s.wires[Ep(s, p).wire.value], p).q[0];
            pk.Reply? ==> !pk.decision.ResetSession?
  {
    hide SenderOk, Owned, Direction, Shape;
    assert SideOk(s, p);
    var e := Ep(s, p);
    var w := s.wires[e.wire.value];
    if In(w, p).q[0].Reply? {
      HeadAgrees(e, p, w);
    }
  }

  lemma ReceiveKeepsPeerHard(s: State, p: Side)
    requires Inv(s) && Enabled(s, Receive(p)) && HardOk(s, Other(p))
    ensures HardOk(Step(s, Receive(p)), Other(p))
  {
    hide Inv, PeerIsNew, PhaseOnWire, Shape, Received, Response;
    var e, f := Ep(s, Other(p)), Ep(s, p);
    var t := Step(s, Receive(p));
    HardFacts(s, Other(p));
    WhereFacts(s, p);
    HardFacts(s, p);
    ReceivedFacts(f, In(s.wires[f.wire.value], p).q[0]);
    if e.hardReset {
      NoResetOnItsWay(s, p);
      ReplyKeepsPeerNew(e, f, Ep(t, p), p, s.wires, t.wires[f.wire.value]);
    } else {
      NotTold(Ep(t, Other(p)), Ep(t, p), p, t.wires);
    }
  }

  lemma WriteKeepsHard(s: State, p: Side, q: Side)
    requires Inv(s) && Enabled(s, Write(p)) && HardOk(s, q)
    ensures HardOk(Step(s, Write(p)), q)
  {
    hide Inv;
    HardFacts(s, q);
    WhereFacts(s, p);
  }

  lemma SendAckKeepsHard(s: State, p: Side, q: Side)
    requires Inv(s) && Enabled(s, SendAck(p)) && HardOk(s, q)
    ensures HardOk(Step(s, SendAck(p)), q)
  {
    hide Inv;
    HardFacts(s, q);
    WhereFacts(s, p);
  }

  /** The steps that leave the wires alone and keep both sides where they are. */
  lemma LocalKeepsHard(s: State, act: Action, q: Side)
    requires act.Start? || act.Send? || act.Wake? || act.Ready?
    requires Inv(s) && Enabled(s, act) && HardOk(s, q)
    ensures HardOk(Step(s, act), q)
  {
    hide Inv, Enqueue, DecisionAt, NextOutgoing;
    HardFacts(s, q);
    WhereFacts(s, act.p);
    hide Shape;
  }
}
