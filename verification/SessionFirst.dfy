/**
 Sessions whose first handshake is not interrupted: if neither side faults before both have been
 connected once, no decision ever resets a session, whatever the policies are and however often sockets
 break afterwards. The reason is the global numbers: every connect message of a first session that is
 still on its way is older than the number its reader remembers.
 */
module SessionFirst {
  import opened Wrappers
  import opened SendQueue
  import opened Endpoints
  import opened N = Negotiation
  import opened Session
  import opened SessionSafety
  import opened SessionSteps
  import opened SessionReady
  import opened SessionTheorems
  import opened SessionResets

  /** One of the two sides has never been connected. */
  predicate Early(s: State) {
    s.a.connectSeq == 0 || s.b.connectSeq == 0
  }

  /** The actions can be taken, and no side faults before both have been connected. */
  ghost predicate Calm(s: State, acts: seq<Action>)
    decreases |acts|
  {
    acts == [] || (Enabled(s, acts[0]) && (acts[0].Break? ==> !Early(s)) && Calm(Step(s, acts[0]), acts[1..]))
  }

  predicate NamesNumber(pk: Packet) {
    pk.SeqReply? || pk.ReadyReply?
  }

  predicate KnowsNumber(e: Endpoint) {
    e.phase.WaitAckSeq? || e.phase.ConnectReady?
  }

  /** p can take the packet pk off wire i. */
  predicate CanTake(s: State, p: Side, i: nat, pk: Packet) {
    && i < |s.wires| && Ep(s, p).wire == Some(i)
    && In(s.wires[i], p).q != [] && In(s.wires[i], p).q[0] == pk && CanReceive(Ep(s, p), pk)
  }

  // ---------------------------------------------------------------- both have been connected

  /** x's messages: those of its first session are at most n, later numbers are above it. */
  ghost predicate LateWire(w: Wire, x: Side, n: int) {
    if w.connector == x then
      forall pk | pk in w.forward.q && pk.ConnectMsg? ::
        if pk.connectSeq == 0 then pk.globalSeq <= n && !w.adopted else pk.globalSeq > n
    else
      forall pk | pk in w.back.q && NamesNumber(pk) :: pk.globalSeq > n
  }

  /** The number up to which x's first session reached is behind its peer. */
  ghost predicate LateSide(s: State, x: Side, n: int) {
    var e, f := Ep(s, x), Ep(s, Other(x));
    && e.connectSeq > 0
    && e.counter >= n && (e.phase.WaitReply? ==> e.globalSeq > n)
    && f.peerGlobalSeq > n && (KnowsNumber(f) ==> f.phase.globalSeq > n)
    && (forall i | 0 <= i < |s.wires| :: LateWire(s.wires[i], x, n))
  }

  lemma LateNoReset(s: State, act: Action, x: Side, n: int, m: int)
    requires Inv(s) && Enabled(s, act) && LateSide(s, x, n) && LateSide(s, Other(x), m)
    ensures !Resets(s, act)
  {
    hide Inv, Decide;
    if act.Accept? {
      ResetsIff(s, act.w, act.exact);
      var w := s.wires[act.w];
      assert w.forward.q[0] in w.forward.q;
      assert LateWire(w, w.connector, if w.connector == x then n else m);
      PresentOnceConnected(s, Other(w.connector));
    }
  }

  lemma PresentOnceConnected(s: State, p: Side)
    requires Inv(s) && Ep(s, p).connectSeq > 0
    ensures !Ep(s, p).phase.Absent? && !Ep(s, p).phase.Closed?
  {
    hide Direction, HandshakeOk, Owned, Window;
    assert SideOk(s, p);
  }

  /** The numbers of a side, its own above n and the peer's above m. */
  ghost predicate LateNumbers(e: Endpoint, n: int, m: int) {
    && e.connectSeq > 0
    && e.counter >= n && (e.phase.WaitReply? ==> e.globalSeq > n)
    && e.peerGlobalSeq > m && (KnowsNumber(e) ==> e.phase.globalSeq > m)
  }

  lemma LateLocal(e: Endpoint, pol: Policy, torn: bool, prio: nat, id: nat, n: int, m: int)
    requires LateNumbers(e, n, m)
    ensures |e.sent| <= e.outSeq ==> LateNumbers(Fault(e, pol, torn), n, m)
    ensures LateNumbers(SendMessage(e, prio, id), n, m)
    ensures LateNumbers(e.(phase := Phase.Connecting), n, m)
    ensures e.phase.ConnectReady? || e.phase.AcceptReady? ==> LateNumbers(BecomeOpen(e), n, m)
  {
    hide Requeue, Enqueue;
  }

  lemma LateLocalStep(s: State, act: Action, x: Side, n: int, m: int)
    requires act.Start? || act.Send? || act.Wake? || act.Ready? || act.Break?
    requires Enabled(s, act) && LateSide(s, x, n) && LateSide(s, Other(x), m)
    ensures LateSide(Step(s, act), x, n)
  {
    hide LateWire, NextOutgoing, Fault, SendMessage, BecomeOpen;
    var own, peer := if act.p == x then n else m, if act.p == x then m else n;
    LateLocal(Ep(s, act.p), Pol(s.cfg, act.p), act.Break? && act.torn, if act.Send? then act.prio else 0,
              if act.Send? then act.id else 0, own, peer);
  }

  lemma LateCut(s: State, act: Action, x: Side, n: int)
    requires act.Cut? && Enabled(s, act) && LateSide(s, x, n)
    ensures LateSide(Step(s, act), x, n)
  {
    hide NextOutgoing;
    assert LateWire(s.wires[act.w], x, n);
  }

  /** Data, acknowledgements and replies carry no global number of a connect message. */
  lemma LatePush(w: Wire, p: Side, pk: Packet, x: Side, n: int)
    requires LateWire(w, x, n) && !pk.ConnectMsg? && !NamesNumber(pk)
    ensures LateWire(WithOut(w, p, Push(Out(w, p), [pk])), x, n)
  {
  }

  lemma LatePushStep(s: State, act: Action, x: Side, n: int)
    requires act.Write? || act.SendAck? || act.FinishReplace?
    requires Enabled(s, act) && LateSide(s, x, n)
    ensures LateSide(Step(s, act), x, n)
  {
    hide LateWire, NextOutgoing, Requeue, WithOut;
    var e := Ep(s, act.p);
    var i := e.wire.value;
    var pk := match act
      case Write(p) => Data(WriteOne(e).sent[|e.sent|].id, WriteOne(e).outSeq)
      case SendAck(_) => Ack(e.inSeq)
      case _ => Reply(RetryGlobal(e.peerGlobalSeq));
    LatePush(s.wires[i], act.p, pk, x, n);
  }

  lemma LateAttempt(s: State, act: Action, x: Side, n: int, m: int)
    requires act.Attempt? && Enabled(s, act) && LateSide(s, x, n) && LateSide(s, Other(x), m)
    ensures LateSide(Step(s, act), x, n)
  {
    hide NextOutgoing;
  }

  /** A wire that is adopted carries no message of a first session: its only packet is being read. */
  lemma LateAnswered(w: Wire, q: Side, out: seq<Packet>, adopted: bool, x: Side, n: int)
    requires LateWire(w, x, n) && q != w.connector && |w.forward.q| == 1 && (forall r | r in out :: r.Reply?)
    ensures LateWire(Exchange(w, q, out), x, n) && LateWire(Exchange(w, q, out).(adopted := adopted), x, n)
  {
  }

  lemma LateAccept(s: State, act: Action, x: Side, n: int, m: int)
    requires act.Accept? && Inv(s) && Enabled(s, act) && LateSide(s, x, n) && LateSide(s, Other(x), m)
    ensures LateSide(Step(s, act), x, n)
  {
    hide Inv, Decide, NextOutgoing, OpenSession, WasReset, LateWire, Exchange, Resets;
    var w := s.wires[act.w];
    var q := Other(w.connector);
    var d := DecisionAt(s, q, act.exact, w.forward.q[0]);
    NotLosing(s, act, x, n, m);
    PresentOnceConnected(s, q);
    UnadoptedFacts(s, act.w);
    LateAnswered(w, q, if d.Replace? then [] else [Reply(d)], d.Replace?, x, n);
  }

  lemma NotLosing(s: State, act: Action, x: Side, n: int, m: int)
    requires act.Accept? && Inv(s) && Enabled(s, act) && LateSide(s, x, n) && LateSide(s, Other(x), m)
    ensures var q := Other(s.wires[act.w].connector);
            !Losing(DecisionAt(s, q, act.exact, s.wires[act.w].forward.q[0]), Pol(s.cfg, q).resetcheck)
  {
    hide Inv, Decide, LateSide, Losing, NextOutgoing;
    LateNoReset(s, act, x, n, m);
  }

  /** Numbers that x writes from now on. */
  ghost predicate LateOutput(out: seq<Packet>, n: int) {
    forall r | r in out ::
      (r.ConnectMsg? ==> r.connectSeq > 0 && r.globalSeq > n) && (NamesNumber(r) ==> r.globalSeq > n)
  }

  lemma LateReceived(e: Endpoint, pk: Packet, n: int, m: int)
    requires CanReceive(e, pk) && LateNumbers(e, n, m)
    requires NamesNumber(pk) || pk.ConnectMsg? ==> pk.globalSeq > m
    requires pk.Reply? ==> !pk.decision.ResetSession? && (pk.decision.RetrySession? ==> pk.decision.connectSeq > 0)
    ensures LateNumbers(Received(e, pk), n, m)
    ensures LateOutput(Response(e, Received(e, pk), pk), n)
  {
    hide Discard, DiscardCount, Ids, IdList, AckCount;
  }

  lemma LateExchange(w: Wire, p: Side, out: seq<Packet>, stage: nat, x: Side, n: int)
    requires LateWire(w, x, n) && In(w, p).q != [] && (p == x ==> LateOutput(out, n))
    ensures LateWire(Exchange(w, p, out).(stage := stage), x, n)
  {
  }

  /** The packet p reads names no number that p already knows. */
  lemma LateInput(s: State, p: Side, i: nat, pk: Packet, n: int)
    requires Inv(s) && CanTake(s, p, i, pk) && LateSide(s, Other(p), n)
    ensures NamesNumber(pk) || pk.ConnectMsg? ==> pk.globalSeq > n
    ensures pk.Reply? ==> !pk.decision.ResetSession? && (pk.decision.RetrySession? ==> pk.decision.connectSeq > 0)
  {
    hide SenderOk, Owned, Direction, Shape;
    assert SideOk(s, p);
    var e := Ep(s, p);
    var w := s.wires[i];
    assert pk in In(w, p).q;
    assert LateWire(w, Other(p), n);
    if pk.Reply? {
      HeadAgrees(e, p, w);
    }
  }

  lemma LateReceive(s: State, act: Action, x: Side, n: int, m: int)
    requires act.Receive? && Inv(s) && Enabled(s, act) && LateSide(s, x, n) && LateSide(s, Other(x), m)
    ensures LateSide(Step(s, act), x, n)
  {
    hide Inv, Decide, NextOutgoing, CanReceive, Received, Response, StageAfter, LateWire, LateOutput, Exchange;
    var p := act.p;
    var e := Ep(s, p);
    var w := s.wires[e.wire.value];
    var pk := In(w, p).q[0];
    var e2 := Received(e, pk);
    var own, peer := if p == x then n else m, if p == x then m else n;
    LateInput(s, p, e.wire.value, pk, peer);
    LateReceived(e, pk, own, peer);
    LateExchange(w, p, Response(e, e2, pk), StageAfter(w.stage, e, e2, pk), x, n);
  }

  lemma LateStep(s: State, act: Action, x: Side, n: int, m: int)
    requires Inv(s) && Enabled(s, act) && LateSide(s, x, n) && LateSide(s, Other(x), m)
    ensures LateSide(Step(s, act), x, n)
  {
    hide Inv, Enabled, Step, LateSide;
    match act {
      case Attempt(_) => LateAttempt(s, act, x, n, m);
      case Accept(_, _) => LateAccept(s, act, x, n, m);
      case Receive(_) => LateReceive(s, act, x, n, m);
      case Cut(_, _, _) => LateCut(s, act, x, n);
      case FinishReplace(_) => LatePushStep(s, act, x, n);
      case Write(_) => LatePushStep(s, act, x, n);
      case SendAck(_) => LatePushStep(s, act, x, n);
      case _ => LateLocalStep(s, act, x, n, m);
    }
  }

  // ---------------------------------------------------------------- the first handshake

  function AddrOf(cfg: Config, p: Side): nat {
    if p.A? then cfg.addrA else cfg.addrB
  }

  /** p's session lives on a wire that the other side opened. */
  predicate Accepting(s: State, p: Side) {
    Attached(s, p) && s.wires[Ep(s, p).wire.value].connector != p
  }

  predicate HasOwnWire(s: State, p: Side) {
    exists i | 0 <= i < |s.wires| :: s.wires[i].connector == p
  }

  /** A wire during the first handshake. e is its connector, f the accepting side. */
  ghost predicate EarlyWire(e: Endpoint, f: Endpoint, server: bool, i: nat, w: Wire) {
    && !e.phase.Absent? && !e.phase.Connecting? && !server
    && (forall pk | pk in w.forward.q && pk.ConnectMsg? ::
          pk.connectSeq == 0 && pk.globalSeq <= e.counter && (e.connectSeq > 0 ==> pk.globalSeq < e.counter))
    && (forall pk | pk in w.back.q && pk.Reply? :: pk.decision.RetryGlobal? || pk.decision.Wait?)
    && (forall pk | pk in w.back.q && NamesNumber(pk) :: pk.globalSeq == f.counter)
    && (w.stage >= 1 ==> f.connectSeq > 0)
    && (w.adopted ==> f.wire == Some(i))
  }

  ghost predicate EarlySide(s: State, p: Side) {
    var e, f := Ep(s, p), Ep(s, Other(p));
    && !e.phase.Standby?
    && (KnowsNumber(e) ==> e.phase.globalSeq == f.counter)
    && (Accepting(s, p) && HasOwnWire(s, p) ==> AddrOf(s.cfg, Other(p)) < AddrOf(s.cfg, p))
    && (e.connectSeq > 0 ==>
          f.connectSeq == 0 && Accepting(s, p) && f.wire == e.wire && s.wires[e.wire.value].stage >= 1)
  }

  /** Each side has opened at most one wire. */
  ghost predicate OneEach(wires: seq<Wire>) {
    forall i, j | 0 <= i < j < |wires| :: wires[i].connector != wires[j].connector
  }

  ghost predicate FirstHandshake(s: State) {
    && OneEach(s.wires)
    && EarlySide(s, A) && EarlySide(s, B)
    && (forall i | 0 <= i < |s.wires| ::
          var w := s.wires[i];
          EarlyWire(Ep(s, w.connector), Ep(s, Other(w.connector)), Pol(s.cfg, w.connector).server, i, w))
  }

  lemma InitIsEarly(cfg: Config)
    ensures FirstHandshake(Init(cfg)) && Early(Init(cfg))
  {
  }

  /** The accepting side during the first handshake: it has no other session, so nothing is reset. */
  lemma EarlyNoReset(s: State, act: Action)
    requires Inv(s) && FirstHandshake(s) && Enabled(s, act)
    ensures !Resets(s, act)
  {
    hide Inv, Decide;
    if act.Accept? {
      ResetsIff(s, act.w, act.exact);
      var w := s.wires[act.w];
      assert w.forward.q[0] in w.forward.q;
      UnadoptedFacts(s, act.w);
    }
  }

  /** A change of one endpoint that leaves its numbers and its place alone; n is the peer's counter. */
  ghost predicate Settled(e: Endpoint, e2: Endpoint, n: nat) {
    && e2.wire == e.wire && e2.connectSeq == e.connectSeq && e2.counter == e.counter && !e2.phase.Standby?
    && (KnowsNumber(e2) ==> e2.phase.globalSeq == n || (KnowsNumber(e) && e2.phase.globalSeq == e.phase.globalSeq))
    && (e2.phase.Absent? || e2.phase.Connecting? ==> e.phase.Absent? || e.phase.Connecting?)
  }

  lemma SettledWires(e: Endpoint, e2: Endpoint, n: nat, f: Endpoint, server: bool, i: nat, w: Wire)
    requires Settled(e, e2, n)
    ensures EarlyWire(e, f, server, i, w) ==> EarlyWire(e2, f, server, i, w)
    ensures EarlyWire(f, e, server, i, w) ==> EarlyWire(f, e2, server, i, w)
  {
  }

  lemma SettledSides(s: State, p: Side, e2: Endpoint)
    requires EarlySide(s, A) && EarlySide(s, B) && Settled(Ep(s, p), e2, Ep(s, Other(p)).counter)
    ensures EarlySide(WithEp(s, p, e2), A) && EarlySide(WithEp(s, p, e2), B)
  {
    hide HasOwnWire;
    var t := WithEp(s, p, e2);
    forall x: Side ensures HasOwnWire(t, x) <==> HasOwnWire(s, x) {
      SameWiresOwned(s, t, x);
    }
  }

  /** Who opened a wire does not change. */
  lemma SameWiresOwned(s: State, t: State, x: Side)
    requires |t.wires| == |s.wires| && forall i | 0 <= i < |s.wires| :: t.wires[i].connector == s.wires[i].connector
    ensures HasOwnWire(t, x) <==> HasOwnWire(s, x)
  {
  }

  lemma EarlySettled(s: State, p: Side, e2: Endpoint)
    requires FirstHandshake(s) && Settled(Ep(s, p), e2, Ep(s, Other(p)).counter)
    ensures FirstHandshake(WithEp(s, p, e2))
  {
    hide EarlyWire, EarlySide, Settled;
    SettledSides(s, p, e2);
    forall i | 0 <= i < |s.wires|
      ensures var w := s.wires[i];
              EarlyWire(Ep(WithEp(s, p, e2), w.connector), Ep(WithEp(s, p, e2), Other(w.connector)),
                        Pol(s.cfg, w.connector).server, i, w)
    {
      var w := s.wires[i];
      SettledWires(Ep(s, p), e2, Ep(s, Other(p)).counter, Ep(s, Other(p)), Pol(s.cfg, w.connector).server, i, w);
    }
  }

  lemma EarlyLocalStep(s: State, act: Action)
    requires act.Start? || act.Send? || act.Wake?
    requires FirstHandshake(s) && Enabled(s, act)
    ensures FirstHandshake(Step(s, act))
  {
    hide FirstHandshake, NextOutgoing, Enqueue;
    NobodyInStandby(s);
    EarlySettled(s, act.p, Ep(Step(s, act), act.p));
  }

  lemma NobodyInStandby(s: State)
    requires FirstHandshake(s)
    ensures !s.a.phase.Standby? && !s.b.phase.Standby?
  {
  }

  lemma PushedWire(e: Endpoint, f: Endpoint, server: bool, i: nat, w: Wire, p: Side, pk: Packet)
    requires EarlyWire(e, f, server, i, w) && (pk.Data? || pk.Ack? || (pk.Reply? && pk.decision.RetryGlobal?))
    ensures EarlyWire(e, f, server, i, WithOut(w, p, Push(Out(w, p), [pk])))
  {
  }

  /** One wire changes, but not who opened it, and an opened session stays open. */
  lemma WireChanges(s: State, i: nat, w2: Wire)
    requires FirstHandshake(s) && i < |s.wires|
    requires w2.connector == s.wires[i].connector && (w2.stage >= 1 || s.wires[i].stage == 0)
    requires EarlyWire(Ep(s, w2.connector), Ep(s, Other(w2.connector)), Pol(s.cfg, w2.connector).server, i, w2)
    ensures FirstHandshake(s.(wires := s.wires[i := w2]))
  {
    hide EarlyWire, HasOwnWire;
    var t := s.(wires := s.wires[i := w2]);
    SameWiresOwned(s, t, A);
    SameWiresOwned(s, t, B);
  }

  lemma EarlyCut(s: State, act: Action)
    requires act.Cut? && FirstHandshake(s) && Enabled(s, act)
    ensures FirstHandshake(Step(s, act))
  {
    hide FirstHandshake, NextOutgoing, EarlyWire, CutWire;
    var w := s.wires[act.w];
    EarlyAt(s, act.w);
    CutEarlyWire(Ep(s, w.connector), Ep(s, Other(w.connector)), Pol(s.cfg, w.connector).server, act.w, w,
                 act.forward, act.keep);
    WireChanges(s, act.w, CutWire(w, act.forward, act.keep));
  }

  lemma CutEarlyWire(e: Endpoint, f: Endpoint, server: bool, i: nat, w: Wire, forward: bool, keep: nat)
    requires EarlyWire(e, f, server, i, w) && keep <= |(if forward then w.forward else w.back).q|
    ensures var w2 := CutWire(w, forward, keep);
            EarlyWire(e, f, server, i, w2) && w2.connector == w.connector && w2.stage == w.stage
  {
  }

  lemma EarlyPushed(s: State, p: Side, i: nat, pk: Packet)
    requires FirstHandshake(s) && i < |s.wires| && (pk.Data? || pk.Ack? || (pk.Reply? && pk.decision.RetryGlobal?))
    ensures FirstHandshake(s.(wires := PushOn(s, p, i, pk)))
  {
    hide EarlyWire, EarlySide;
    var w := s.wires[i];
    PushedWire(Ep(s, w.connector), Ep(s, Other(w.connector)), Pol(s.cfg, w.connector).server, i, w, p, pk);
    WireChanges(s, i, WithOut(w, p, Push(Out(w, p), [pk])));
  }

  lemma EarlyPush(s: State, act: Action)
    requires act.Write? || act.SendAck? || act.FinishReplace?
    requires FirstHandshake(s) && Enabled(s, act)
    ensures FirstHandshake(Step(s, act))
  {
    hide FirstHandshake, NextOutgoing, Requeue, WithOut;
    var e := Ep(s, act.p);
    var i := e.wire.value;
    var pk := match act
      case Write(p) => Data(WriteOne(e).sent[|e.sent|].id, WriteOne(e).outSeq)
      case SendAck(_) => Ack(e.inSeq)
      case _ => Reply(RetryGlobal(e.peerGlobalSeq));
    var s1 := s.(wires := PushOn(s, act.p, i, pk));
    EarlyPushed(s, act.p, i, pk);
    EarlySettled(s1, act.p, Ep(Step(s, act), act.p));
  }

  /** The first attempt of a side that has no socket: it opened no wire, and adopted none. */
  lemma WireBeforeAttempt(s: State, p: Side, j: nat)
    requires Inv(s) && FirstHandshake(s) && Ep(s, p).phase.Connecting? && j < |s.wires|
    ensures s.wires[j].connector == Other(p) && s.wires[j].stage == 0 && !s.wires[j].adopted
    ensures forall pk | pk in s.wires[j].back.q :: !NamesNumber(pk)
  {
    WhereFacts(s, p);
    EarlyAt(s, j);
    hide SideOk;
    assert Shape(s.wires[j]);
  }

  lemma SidesBeforeAttempt(s: State, p: Side)
    requires Inv(s) && FirstHandshake(s) && Ep(s, p).phase.Connecting?
    ensures Ep(s, p).wire.None? && Ep(s, p).connectSeq == 0 && !HasOwnWire(s, p)
    ensures !Accepting(s, Other(p)) && !KnowsNumber(Ep(s, Other(p))) && Ep(s, Other(p)).connectSeq == 0
  {
    hide EarlyWire, Inv;
    WhereFacts(s, p);
    WhereFacts(s, Other(p));
    forall j | 0 <= j < |s.wires| ensures s.wires[j].connector == Other(p) && s.wires[j].stage == 0 {
      WireBeforeAttempt(s, p, j);
    }
  }

  lemma SidesAfterAttempt(s: State, p: Side, e2: Endpoint, w: Wire)
    requires EarlySide(s, Other(p)) && Ep(s, Other(p)).connectSeq == 0 && !KnowsNumber(Ep(s, Other(p)))
    requires !Accepting(s, Other(p)) && (Ep(s, Other(p)).wire.Some? ==> Ep(s, Other(p)).wire.value < |s.wires|)
    requires e2.phase.WaitReply? && e2.wire == Some(|s.wires|) && e2.connectSeq == 0 && w.connector == p
    ensures var t := WithEp(s, p, e2).(wires := s.wires + [w]);
            EarlySide(t, A) && EarlySide(t, B)
  {
    hide HasOwnWire;
  }

  lemma EarlyAttempt(s: State, act: Action)
    requires act.Attempt? && Inv(s) && FirstHandshake(s) && Enabled(s, act)
    ensures FirstHandshake(Step(s, act))
  {
    hide Inv, NextOutgoing, EarlySide, HasOwnWire, Accepting, KnowsNumber;
    var p := act.p;
    var t := Step(s, act);
    var e2 := Ep(t, p);
    SidesBeforeAttempt(s, p);
    WhereFacts(s, Other(p));
    SidesAfterAttempt(s, p, e2, t.wires[|s.wires|]);
    hide EarlyWire;
    forall j | 0 <= j < |s.wires|
      ensures s.wires[j].connector == Other(p)
      ensures EarlyWire(Ep(s, Other(p)), e2, Pol(s.cfg, Other(p)).server, j, s.wires[j])
    {
      EarlyAt(s, j);
      WireBeforeAttempt(s, p, j);
      UnadoptedWire(Ep(s, Other(p)), Ep(s, p), e2, Pol(s.cfg, Other(p)).server, j, s.wires[j]);
    }
    NewWire(e2, Ep(t, Other(p)), Pol(s.cfg, p).server, |s.wires|, t.wires[|s.wires|]);
  }

  lemma UnadoptedWire(f: Endpoint, e: Endpoint, e2: Endpoint, server: bool, j: nat, w: Wire)
    requires EarlyWire(f, e, server, j, w) && w.stage == 0 && !w.adopted
             && (forall pk | pk in w.back.q :: !NamesNumber(pk))
    ensures EarlyWire(f, e2, server, j, w)
  {
  }

  lemma NewWire(e: Endpoint, f: Endpoint, server: bool, i: nat, w: Wire)
    requires e.phase.WaitReply? && !server && e.connectSeq == 0 && !w.adopted && w.stage == 0 && w.back.q == []
    requires w.forward.q == [ConnectMsg(0, e.counter)]
    ensures EarlyWire(e, f, server, i, w)
  {
  }

  /** Whoever answers is no server, or has no attempt of its own, or has the higher address. */
  lemma EarlyDecision(s: State, act: Action)
    requires act.Accept? && Inv(s) && FirstHandshake(s) && Enabled(s, act)
    ensures var w := s.wires[act.w];
            var q := Other(w.connector);
            var d := DecisionAt(s, q, act.exact, w.forward.q[0]);
            && (d.Open? <==> Ep(s, q).phase.Absent?)
            && (!d.Open? ==> d.RetryGlobal? || d.Wait? || d == Replace(false))
            && (d.Open? || d.Replace? ==> Ep(s, q).connectSeq == 0 && Ep(s, w.connector).connectSeq == 0)
            && (d.Replace? && HasOwnWire(s, q) ==> AddrOf(s.cfg, w.connector) < AddrOf(s.cfg, q))
  {
    hide Direction, Owned, Window, Shape;
    var w := s.wires[act.w];
    assert w.forward.q[0] in w.forward.q;
    UnadoptedFacts(s, act.w);
    assert SideOk(s, Other(w.connector));
    assert SideOk(s, w.connector);
  }

  /** The accepting side answers without taking the wire. */
  lemma EarlyAnswer(s: State, i: nat, d: Decision)
    requires Inv(s) && FirstHandshake(s) && i < |s.wires| && s.wires[i].forward.q != [] && (d.RetryGlobal? || d.Wait?)
    ensures FirstHandshake(s.(wires := s.wires[i := Exchange(s.wires[i], Other(s.wires[i].connector), [Reply(d)])]))
  {
    hide Inv, EarlySide, OneEach;
    var w := s.wires[i];
    WireChanges(s, i, Exchange(w, Other(w.connector), [Reply(d)]));
  }

  /** The side q takes wire i, which the other side opened, for its session; e2 and w2 are what they become. */
  ghost predicate Takes(s: State, i: nat, e2: Endpoint, w2: Wire)
    requires i < |s.wires|
  {
    var w := s.wires[i];
    var p, q := w.connector, Other(w.connector);
    && w2.connector == p && w2.adopted && w2.stage >= w.stage && w2.forward.q == []
    && (forall pk | pk in w2.back.q :: !pk.Reply? && (NamesNumber(pk) ==> pk.globalSeq == e2.counter))
    && e2.wire == Some(i) && !KnowsNumber(e2)
    && !e2.phase.Absent? && !e2.phase.Connecting? && !e2.phase.Standby?
    && Ep(s, q).connectSeq == Ep(s, p).connectSeq == 0
    && (HasOwnWire(s, q) ==> AddrOf(s.cfg, p) < AddrOf(s.cfg, q))
  }

  lemma OtherWireAfterTaking(s: State, i: nat, e2: Endpoint, w2: Wire, j: nat)
    requires FirstHandshake(s) && i < |s.wires| && j < |s.wires| && j != i && Takes(s, i, e2, w2)
    requires (e2.connectSeq == 0 && e2.counter == Ep(s, Other(w2.connector)).counter)
             || e2.counter > Ep(s, Other(w2.connector)).counter
    ensures s.wires[j].connector == Other(w2.connector)
    ensures EarlyWire(e2, Ep(s, w2.connector), Pol(s.cfg, s.wires[j].connector).server, j, s.wires[j])
  {
    hide EarlySide;
    assert s.wires[j].connector != s.wires[i].connector;
  }

  /** Adoption: the numbers stay. Opening: the connector is on the wire, and the counter passes all earlier numbers. */
  ghost predicate TakesNumbers(e: Endpoint, f: Endpoint, i: nat, e2: Endpoint, w2: Wire) {
    if e2.connectSeq == 0 then e2.counter == e.counter && w2.stage == 0
    else e2.counter > e.counter && f.wire == Some(i) && w2.stage >= 1 && !KnowsNumber(f)
  }

  lemma EarlySidesAfterTaking(s: State, i: nat, e2: Endpoint, w2: Wire)
    requires FirstHandshake(s) && i < |s.wires| && Takes(s, i, e2, w2)
    requires TakesNumbers(Ep(s, Other(w2.connector)), Ep(s, w2.connector), i, e2, w2)
    ensures var t := Changed(s, Other(w2.connector), e2, i, w2);
            EarlySide(t, A) && EarlySide(t, B)
  {
    hide EarlyWire, HasOwnWire, OneEach;
    var t := Changed(s, Other(w2.connector), e2, i, w2);
    SameWiresOwned(s, t, A);
    SameWiresOwned(s, t, B);
  }

  lemma EarlyTaken(s: State, i: nat, e2: Endpoint, w2: Wire)
    requires FirstHandshake(s) && i < |s.wires| && Takes(s, i, e2, w2)
    requires TakesNumbers(Ep(s, Other(w2.connector)), Ep(s, w2.connector), i, e2, w2)
    ensures FirstHandshake(Changed(s, Other(w2.connector), e2, i, w2))
  {
    hide EarlySide, HasOwnWire;
    var q := Other(w2.connector);
    var t := Changed(s, q, e2, i, w2);
    EarlySidesAfterTaking(s, i, e2, w2);
    assert OneEach(t.wires);
    forall j | 0 <= j < |t.wires|
      ensures var w := t.wires[j];
              EarlyWire(Ep(t, w.connector), Ep(t, Other(w.connector)), Pol(t.cfg, w.connector).server, j, w)
    {
      if j != i {
        OtherWireAfterTaking(s, i, e2, w2, j);
      }
    }
  }

  /** During the first handshake a connector that has not been accepted waits on its own wire. */
  lemma ConnectorWaits(s: State, i: nat)
    requires Inv(s) && FirstHandshake(s) && i < |s.wires| && s.wires[i].forward.q != [] && s.wires[i].stage == 0
    requires var p := s.wires[i].connector; !Accepting(s, p)
    ensures Ep(s, s.wires[i].connector).wire == Some(i)
    ensures !KnowsNumber(Ep(s, s.wires[i].connector)) && Ep(s, s.wires[i].connector).connectSeq == 0
  {
    hide Inv, Shape;
    WhereFacts(s, s.wires[i].connector);
  }

  lemma EarlyAccept(s: State, act: Action)
    requires act.Accept? && Inv(s) && FirstHandshake(s) && Enabled(s, act)
    ensures FirstHandshake(Step(s, act))
  {
    hide Inv, FirstHandshake, Decide, NextOutgoing, TakesNumbers, Takes, OpenSession, WasReset;
    var i := act.w;
    var w := s.wires[i];
    var q := Other(w.connector);
    var d := DecisionAt(s, q, act.exact, w.forward.q[0]);
    EarlyDecision(s, act);
    UnadoptedFacts(s, i);
    if d.Replace? {
      EarlyAdopt(s, i);
    } else if d.Open? {
      EarlyFirstOpen(s, i);
    } else {
      EarlyAnswer(s, i, d);
    }
  }

  lemma EarlyAdopt(s: State, i: nat)
    requires FirstHandshake(s) && i < |s.wires| && |s.wires[i].forward.q| == 1 && s.wires[i].back.q == []
    requires s.wires[i].stage == 0
    requires var p, q := s.wires[i].connector, Other(s.wires[i].connector);
             && Ep(s, q).connectSeq == Ep(s, p).connectSeq == 0
             && (HasOwnWire(s, q) ==> AddrOf(s.cfg, p) < AddrOf(s.cfg, q))
    ensures var q := Other(s.wires[i].connector);
            FirstHandshake(Changed(s, q, Adopt(Ep(s, q), false, Pol(s.cfg, q).resetcheck, i), i,
                                   Exchange(s.wires[i], q, []).(adopted := true)))
  {
    hide FirstHandshake, HasOwnWire;
    var q := Other(s.wires[i].connector);
    EarlyTaken(s, i, Adopt(Ep(s, q), false, Pol(s.cfg, q).resetcheck, i), Exchange(s.wires[i], q,
        []).(adopted := true));
  }

  lemma OpenNumbers(e: Endpoint, c: nat, g: nat)
    ensures var e2 := OpenSession(e, c, g);
            && e2.connectSeq == c + 1 && e2.counter == e.counter + 1 && e2.wire == e.wire
            && (e2.phase.AcceptWaitSeq? || e2.phase.AcceptReady?)
  {
    hide Discard, DiscardCount, Ids, IdList;
  }

  /** q opens on wire i, on which the connector still waits. */
  lemma EarlyOpen(s: State, i: nat, e2: Endpoint)
    requires FirstHandshake(s) && i < |s.wires| && |s.wires[i].forward.q| == 1 && s.wires[i].back.q == []
    requires s.wires[i].stage == 0
    requires var p, q := s.wires[i].connector, Other(s.wires[i].connector);
             && Ep(s, p).wire == Some(i) && !KnowsNumber(Ep(s, p))
             && Ep(s, q).connectSeq == Ep(s, p).connectSeq == 0
             && (HasOwnWire(s, q) ==> AddrOf(s.cfg, p) < AddrOf(s.cfg, q))
             && e2.connectSeq > 0 && e2.counter == Ep(s, q).counter + 1 && e2.wire == Some(i)
             && (e2.phase.AcceptWaitSeq? || e2.phase.AcceptReady?)
    ensures var q := Other(s.wires[i].connector);
            FirstHandshake(Changed(s, q, e2, i,
                                   Exchange(s.wires[i], q, OpenReply(e2)).(adopted := true, stage := OpenStage(e2))))
  {
    hide FirstHandshake, HasOwnWire;
    var q := Other(s.wires[i].connector);
    EarlyTaken(s, i, e2, Exchange(s.wires[i], q, OpenReply(e2)).(adopted := true, stage := OpenStage(e2)));
  }

  /** A side without a session has opened no wire. */
  lemma AbsentHasNoWire(s: State, i: nat)
    requires FirstHandshake(s) && i < |s.wires| && Ep(s, Other(s.wires[i].connector)).phase.Absent?
    ensures !HasOwnWire(s, Other(s.wires[i].connector)) && !Accepting(s, s.wires[i].connector)
  {
    hide EarlySide;
  }

  lemma EarlyFirstOpen(s: State, i: nat)
    requires Inv(s) && FirstHandshake(s) && i < |s.wires| && s.wires[i].forward.q != []
    requires s.wires[i].stage == 0 && |s.wires[i].forward.q| + |s.wires[i].back.q| <= 1
    requires s.wires[i].forward.q[0].ConnectMsg?
    requires Ep(s, Other(s.wires[i].connector)).phase.Absent?
    requires Ep(s, Other(s.wires[i].connector)).connectSeq == 0
    ensures var q := Other(s.wires[i].connector);
            var c := s.wires[i].forward.q[0];
            var e2 := OpenSession(Ep(s, q), c.connectSeq, c.globalSeq).(wire := Some(i));
            FirstHandshake(Changed(s, q, e2, i,
                                   Exchange(s.wires[i], q, OpenReply(e2)).(adopted := true, stage := OpenStage(e2))))
  {
    hide Inv, FirstHandshake, HasOwnWire, OpenSession, OpenReply, OpenStage, Exchange;
    var q := Other(s.wires[i].connector);
    var c := s.wires[i].forward.q[0];
    AbsentHasNoWire(s, i);
    ConnectorWaits(s, i);
    OpenNumbers(Ep(s, q), c.connectSeq, c.globalSeq);
    EarlyOpen(s, i, OpenSession(Ep(s, q), c.connectSeq, c.globalSeq).(wire := Some(i)));
  }

  /** A reader whose own numbers do not change. */
  lemma EarlyReader(s: State, p: Side, i: nat, e2: Endpoint, w2: Wire)
    requires FirstHandshake(s) && i < |s.wires| && Settled(Ep(s, p), e2, Ep(s, Other(p)).counter)
    requires w2.connector == s.wires[i].connector && (w2.stage >= 1 || s.wires[i].stage == 0)
    requires EarlyWire(Ep(s, w2.connector), Ep(s, Other(w2.connector)), Pol(s.cfg, w2.connector).server, i, w2)
    ensures FirstHandshake(Changed(s, p, e2, i, w2))
  {
    hide FirstHandshake, EarlyWire, Settled;
    WireChanges(s, i, w2);
    EarlySettled(s.(wires := s.wires[i := w2]), p, e2);
  }

  lemma TrafficSettles(e: Endpoint, pk: Packet, n: nat)
    requires CanReceive(e, pk) && !pk.Reply? && !pk.ConnectMsg? && (NamesNumber(pk) ==> pk.globalSeq == n)
    ensures Settled(e, Received(e, pk), n)
    ensures forall r | r in Response(e, Received(e, pk), pk) :: r.InSeq?
  {
    hide Discard, DiscardCount, Ids, IdList, AckCount;
  }

  lemma ReadWire(e: Endpoint, f: Endpoint, server: bool, i: nat, w: Wire, p: Side, out: seq<Packet>, stage: nat)
    requires EarlyWire(e, f, server, i, w) && In(w, p).q != [] && (forall r | r in out :: r.InSeq?)
    requires stage >= 1 ==> f.connectSeq > 0
    ensures EarlyWire(e, f, server, i, Exchange(w, p, out).(stage := stage))
  {
  }

  /** Numbers are exchanged, and data is read, only on a wire on which a session has opened. */
  lemma ReadStage(s: State, p: Side, i: nat, pk: Packet)
    requires Inv(s) && FirstHandshake(s) && CanTake(s, p, i, pk)
    ensures var e, w := Ep(s, p), s.wires[i];
            && (!pk.Reply? && !pk.ConnectMsg? ==>
                  && Ep(s, Other(w.connector)).connectSeq > 0
                  && (StageAfter(w.stage, e, Received(e, pk), pk) >= 1 || w.stage == 0)
                  && (NamesNumber(pk) ==> pk.globalSeq == Ep(s, Other(p)).counter))
            && (pk.Reply? ==> w.connector == p && w.stage == 0 && e.connectSeq == 0
                              && (pk.decision.RetryGlobal? || pk.decision.Wait?))
            && (pk.ConnectMsg? ==> w.connector != p && w.stage == 0 && w.adopted && e.connectSeq == 0
                                   && |w.forward.q| == 1 && w.back.q == [])
  {
    hide Inv, Received;
    WhereFacts(s, p);
    var w := s.wires[i];
    assert In(w, p).q[0] in In(w, p).q;
  }

  /** The connector of a wire on which nothing has opened draws a new number. */
  ghost predicate Redraws(e: Endpoint, e2: Endpoint, i: nat, w: Wire, w2: Wire) {
    && e.wire == Some(i) && e2.wire == Some(i) && e2.connectSeq == e.connectSeq == 0 && e2.counter >= e.counter
    && (e2.phase.WaitReply? || e2.phase.RaceWait?)
    && w2.connector == w.connector && w2.stage == w.stage == 0 && w2.adopted == w.adopted
    && (forall pk | pk in w2.forward.q && pk.ConnectMsg? :: pk.connectSeq == 0 && pk.globalSeq <= e2.counter)
    && (forall pk | pk in w2.back.q :: pk in w.back.q && !NamesNumber(pk))
  }

  lemma RedrawnWires(e: Endpoint, e2: Endpoint, f: Endpoint, server: bool, i: nat, w: Wire, w2: Wire)
    requires EarlyWire(e, f, server, i, w) && Redraws(e, e2, i, w, w2)
    ensures EarlyWire(e2, f, server, i, w2)
  {
  }

  lemma UnopenedWire(f: Endpoint, e: Endpoint, e2: Endpoint, server: bool, j: nat, w: Wire)
    requires EarlyWire(f, e, server, j, w) && w.stage == 0 && (forall pk | pk in w.back.q :: !NamesNumber(pk))
    requires e2.wire == e.wire && e2.connectSeq == e.connectSeq
    ensures EarlyWire(f, e2, server, j, w)
  {
  }

  lemma RedrawnSides(s: State, p: Side, i: nat, e2: Endpoint, w2: Wire)
    requires Inv(s) && FirstHandshake(s) && i < |s.wires| && s.wires[i].connector == p
    requires Redraws(Ep(s, p), e2, i, s.wires[i], w2)
    ensures EarlySide(Changed(s, p, e2, i, w2), A) && EarlySide(Changed(s, p, e2, i, w2), B)
  {
    hide Inv, HasOwnWire;
    var t := Changed(s, p, e2, i, w2);
    SameWiresOwned(s, t, A);
    SameWiresOwned(s, t, B);
    WhereFacts(s, Other(p));
  }

  /** The connector is asked to try again: only it has a number to change, and nobody knows it yet. */
  lemma EarlyRetry(s: State, p: Side, i: nat, e2: Endpoint, w2: Wire)
    requires Inv(s) && FirstHandshake(s) && i < |s.wires| && s.wires[i].connector == p
    requires Redraws(Ep(s, p), e2, i, s.wires[i], w2)
    ensures FirstHandshake(Changed(s, p, e2, i, w2))
  {
    hide Inv, EarlySide, EarlyWire;
    var t := Changed(s, p, e2, i, w2);
    RedrawnSides(s, p, i, e2, w2);
    forall j | 0 <= j < |t.wires|
      ensures var w := t.wires[j];
              EarlyWire(Ep(t, w.connector), Ep(t, Other(w.connector)), Pol(t.cfg, w.connector).server, j, w)
    {
      if j == i {
        RedrawnWires(Ep(s, p), e2, Ep(s, Other(p)), Pol(s.cfg, p).server, i, s.wires[i], w2);
      } else {
        OtherWireUnopened(s, i, j);
        UnopenedWire(Ep(s, Other(p)), Ep(s, p), e2, Pol(s.cfg, Other(p)).server, j, s.wires[j]);
      }
    }
  }

  lemma OtherWireUnopened(s: State, i: nat, j: nat)
    requires Inv(s) && FirstHandshake(s) && i < |s.wires| && j < |s.wires| && i != j
    requires Ep(s, s.wires[i].connector).wire == Some(i)
    ensures s.wires[j].connector == Other(s.wires[i].connector) && s.wires[j].stage == 0
    ensures forall pk | pk in s.wires[j].back.q :: !NamesNumber(pk)
  {
    hide SenderOk, Owned, Direction, HandshakeOk;
    assert Shape(s.wires[j]);
    assert s.wires[i].connector != s.wires[j].connector;
  }

  lemma RetryNumbers(e: Endpoint, pk: Packet)
    requires CanReceive(e, pk) && pk.Reply? && (pk.decision.RetryGlobal? || pk.decision.Wait?)
    ensures var e2 := Received(e, pk);
            && e2.wire == e.wire && e2.connectSeq == e.connectSeq && e2.counter >= e.counter
            && (e2.phase.WaitReply? || e2.phase.RaceWait?)
            && (forall r | r in Response(e, e2, pk) ::
                  r.ConnectMsg? && r.connectSeq == e.connectSeq && r.globalSeq <= e2.counter)
  {
  }

  lemma EarlyReceiveReply(s: State, p: Side, i: nat, pk: Packet)
    requires Inv(s) && FirstHandshake(s) && CanTake(s, p, i, pk) && pk.Reply?
    ensures var e, w := Ep(s, p), s.wires[i];
            var e2 := Received(e, pk);
            FirstHandshake(Changed(s, p, e2, i, Exchange(w, p, Response(e, e2, pk)).(stage := StageAfter(w.stage, e,
                e2, pk))))
  {
    hide Inv, FirstHandshake, Received, CanReceive;
    var e := Ep(s, p);
    var w := s.wires[i];
    var e2 := Received(e, pk);
    var out := Response(e, e2, pk);
    ReadStage(s, p, i, pk);
    RetryNumbers(e, pk);
    EarlyForward(s, i);
    UnopenedBack(s, i);
    EarlyRetry(s, p, i, e2, Exchange(w, p, out).(stage := StageAfter(w.stage, e, e2, pk)));
  }

  lemma UnopenedBack(s: State, i: nat)
    requires Inv(s) && i < |s.wires| && s.wires[i].stage == 0
    ensures forall pk | pk in s.wires[i].back.q :: !NamesNumber(pk)
  {
    hide SideOk;
    assert Shape(s.wires[i]);
  }

  lemma EarlyForward(s: State, i: nat)
    requires FirstHandshake(s) && i < |s.wires|
    ensures forall pk | pk in s.wires[i].forward.q && pk.ConnectMsg? ::
              pk.connectSeq == 0 && pk.globalSeq <= Ep(s, s.wires[i].connector).counter
  {
    hide EarlySide;
  }

  /** If the accepting side reads a connect message its peer has not itself accepted anything. */
  lemma ReaderIsAlone(s: State, p: Side)
    requires Inv(s) && FirstHandshake(s) && Accepting(s, p)
    ensures HasOwnWire(s, p) ==> AddrOf(s.cfg, Other(p)) < AddrOf(s.cfg, p)
    ensures !Accepting(s, Other(p))
  {
    hide EarlyWire, Inv;
  }

  lemma EarlyReceiveConnect(s: State, p: Side, i: nat, c: Packet)
    requires Inv(s) && FirstHandshake(s) && CanTake(s, p, i, c) && c.ConnectMsg?
    ensures var e, w := Ep(s, p), s.wires[i];
            var e2 := Received(e, c);
            FirstHandshake(Changed(s, p, e2, i, Exchange(w, p, Response(e, e2, c)).(stage := StageAfter(w.stage, e,
                e2, c))))
  {
    hide Inv, FirstHandshake, OpenSession, HasOwnWire, CanReceive;
    var e := Ep(s, p);
    var w := s.wires[i];
    ReadStage(s, p, i, c);
    ReaderIsAlone(s, p);
    ConnectorWaits(s, i);
    OpenNumbers(e, c.connectSeq, c.globalSeq);
    var e2 := OpenSession(e, c.connectSeq, c.globalSeq);
    EarlyOpen(s, i, e2);
    assert Exchange(w, p, OpenReply(e2)).adopted;
  }

  lemma EarlyReceive(s: State, act: Action)
    requires act.Receive? && Inv(s) && FirstHandshake(s) && Enabled(s, act)
    ensures FirstHandshake(Step(s, act))
  {
    hide Inv, FirstHandshake, Received, EarlyWire, CanReceive, Settled, Response, StageAfter;
    var p := act.p;
    var e := Ep(s, p);
    var i := e.wire.value;
    var w := s.wires[i];
    var pk := In(w, p).q[0];
    if pk.Reply? {
      EarlyReceiveReply(s, p, i, pk);
    } else if pk.ConnectMsg? {
      EarlyReceiveConnect(s, p, i, pk);
    } else {
      var e2 := Received(e, pk);
      var stage := StageAfter(w.stage, e, e2, pk);
      ReadStage(s, p, i, pk);
      TrafficSettles(e, pk, Ep(s, Other(p)).counter);
      EarlyAt(s, i);
      ReadWire(Ep(s, w.connector), Ep(s, Other(w.connector)), Pol(s.cfg, w.connector).server, i, w, p,
               Response(e, e2, pk), stage);
      EarlyReader(s, p, i, e2, Exchange(w, p, Response(e, e2, pk)).(stage := stage));
    }
  }

  lemma EarlyAt(s: State, i: nat)
    requires FirstHandshake(s) && i < |s.wires|
    ensures var w := s.wires[i];
            EarlyWire(Ep(s, w.connector), Ep(s, Other(w.connector)), Pol(s.cfg, w.connector).server, i, w)
  {
    hide EarlyWire, EarlySide;
  }

  // ---------------------------------------------------------------- from the first handshake on

  /** Nothing of the connector's negotiation is left once the numbers have been exchanged. */
  lemma NoConnectLeft(s: State, i: nat)
    requires Inv(s) && i < |s.wires| && 2 <= s.wires[i].stage <= 3
    ensures forall pk | pk in s.wires[i].forward.q :: !pk.ConnectMsg?
  {
    hide SideOk;
    assert Shape(s.wires[i]);
    var q := s.wires[i].forward.q;
    if s.wires[i].stage == 2 && q != [] {
      assert q == [q[0]] + q[1..];
    }
  }

  lemma ConnectReadyFacts(s: State, p: Side)
    requires Inv(s) && FirstHandshake(s) && Ep(s, p).phase.ConnectReady?
    ensures var e, f := Ep(s, p), Ep(s, Other(p));
            && e.wire.Some? && e.wire.value < |s.wires| && s.wires[e.wire.value].connector == p
            && 2 <= s.wires[e.wire.value].stage <= 3
            && f.connectSeq > 0 && e.connectSeq == 0 && f.counter == e.phase.globalSeq
            && !f.phase.WaitReply? && !KnowsNumber(f)
  {
    hide Inv;
    WhereFacts(s, p);
    WhereFacts(s, Other(p));
  }

  /** When the connector opens too, its own first attempts are all read, and those of its peer are outdated. */
  lemma OpenedIsLate(s: State, p: Side)
    requires Inv(s) && FirstHandshake(s) && Ep(s, p).phase.ConnectReady?
    ensures var t := WithEp(s, p, BecomeOpen(Ep(s, p)));
            LateSide(t, p, -1) && LateSide(t, Other(p), Ep(s, p).phase.globalSeq - 1)
  {
    hide Inv, EarlySide;
    ConnectReadyFacts(s, p);
    var i := Ep(s, p).wire.value;
    NoConnectLeft(s, i);
    forall j | 0 <= j < |s.wires|
      ensures LateWire(s.wires[j], p, -1) && LateWire(s.wires[j], Other(p), Ep(s, p).phase.globalSeq - 1)
    {
      EarlyAt(s, j);
      if j != i {
        assert s.wires[j].connector != s.wires[i].connector;
      }
    }
  }

  lemma EarlyReady(s: State, act: Action)
    requires act.Ready? && Inv(s) && FirstHandshake(s) && Enabled(s, act)
    ensures Ep(s, act.p).phase.AcceptReady? ==> FirstHandshake(Step(s, act))
    ensures Ep(s, act.p).phase.ConnectReady? ==>
              LateSide(Step(s, act), act.p, -1) && LateSide(Step(s, act), Other(act.p), Ep(s,
                  act.p).phase.globalSeq - 1)
  {
    hide Inv, FirstHandshake, LateSide;
    if Ep(s, act.p).phase.ConnectReady? {
      OpenedIsLate(s, act.p);
    } else {
      EarlySettled(s, act.p, BecomeOpen(Ep(s, act.p)));
    }
  }

  lemma EarlyStep(s: State, act: Action)
    requires Inv(s) && FirstHandshake(s) && Enabled(s, act) && !act.Break?
    requires act.Ready? ==> Ep(s, act.p).phase.AcceptReady?
    ensures FirstHandshake(Step(s, act))
  {
    hide Inv, Enabled, Step, FirstHandshake;
    match act {
      case Attempt(_) => EarlyAttempt(s, act);
      case Accept(_, _) => EarlyAccept(s, act);
      case Receive(_) => EarlyReceive(s, act);
      case Ready(_) => EarlyReady(s, act);
      case Cut(_, _, _) => EarlyCut(s, act);
      case FinishReplace(_) => EarlyPush(s, act);
      case Write(_) => EarlyPush(s, act);
      case SendAck(_) => EarlyPush(s, act);
      case _ => EarlyLocalStep(s, act);
    }
  }

  lemma {:induction false} LateRunsResetNothing(s: State, acts: seq<Action>, x: Side, n: int, m: int)
    requires Good(s) && Calm(s, acts) && LateSide(s, x, n) && LateSide(s, Other(x), m)
    ensures Unreset(s, acts)
    decreases |acts|
  {
    hide Inv, HardOk, Step, Enabled, Resets, LateSide;
    if acts != [] {
      LateNoReset(s, acts[0], x, n, m);
      StepKeepsGood(s, acts[0]);
      LateStep(s, acts[0], x, n, m);
      LateStep(s, acts[0], Other(x), m, n);
      LateRunsResetNothing(Step(s, acts[0]), acts[1..], x, n, m);
    }
  }

  lemma EarlyWhileFirst(s: State)
    requires FirstHandshake(s)
    ensures Early(s)
  {
    hide EarlyWire;
  }

  lemma ReadyPhase(s: State, act: Action)
    requires act.Ready? && Enabled(s, act)
    ensures Ep(s, act.p).phase.ConnectReady? || Ep(s, act.p).phase.AcceptReady?
  {
  }

  lemma {:induction false} CalmRunsResetNothing(s: State, acts: seq<Action>)
    requires Good(s) && FirstHandshake(s) && Calm(s, acts)
    ensures Unreset(s, acts)
    decreases |acts|
  {
    hide Inv, HardOk, Step, Enabled, Resets, FirstHandshake, LateSide, Early;
    if acts != [] {
      var act := acts[0];
      EarlyWhileFirst(s);
      EarlyNoReset(s, act);
      StepKeepsGood(s, act);
      if act.Ready? {
        ReadyPhase(s, act);
        EarlyReady(s, act);
      }
      if act.Ready? && Ep(s, act.p).phase.ConnectReady? {
        LateRunsResetNothing(Step(s, act), acts[1..], act.p, -1, Ep(s, act.p).phase.globalSeq - 1);
      } else {
        EarlyStep(s, act);
        CalmRunsResetNothing(Step(s, act), acts[1..]);
      }
    }
  }

  /**
   Whatever the policies are: if no side faults before both have been connected once, no session is ever
   reset, so everything SessionTheorems says holds of the run.
   */
  lemma CalmRunsFromNothing(cfg: Config, acts: seq<Action>, t: State)
    requires Calm(Init(cfg), acts) && Run(Init(cfg), acts, t)
    ensures Unreset(Init(cfg), acts) && Reachable(cfg, t)
  {
    hide Inv, HardOk, Run, Calm, Unreset, FirstHandshake;
    InitInv(cfg);
    InitIsEarly(cfg);
    InitGood(cfg);
    CalmRunsResetNothing(Init(cfg), acts);
  }

  lemma InitGood(cfg: Config)
    ensures Good(Init(cfg))
  {
    InitInv(cfg);
    hide Inv;
  }
}
