/**
 Who connects and who has been connected: servers open no socket and have a session only once it was
 opened, and a socket on which the session was opened has an acceptor that knows it.
 */
module SessionRoles {
  import opened Wrappers
  import opened SendQueue
  import opened Endpoints
  import opened N = Negotiation
  import opened Session
  import opened SessionSafety
  import opened SessionSteps
  import opened SessionReady
  import opened SessionTheorems
  import opened SessionResets

  /** The session is open, or its acceptor has answered that it will be. */
  predicate Opened(e: Endpoint) {
    e.phase.Open? || e.phase.AcceptWaitSeq? || e.phase.AcceptReady?
  }

  ghost predicate RoleOk(s: State, p: Side) {
    var e := Ep(s, p);
    && (Pol(s.cfg, p).server && !e.phase.Absent? ==> e.connectSeq > 0)
    && (e.phase.Standby? ==> Pol(s.cfg, p).server || Pol(s.cfg, p).standby)
    && (Opened(e) ==> e.onceReady)
  }

  ghost predicate WireRoleOk(s: State, w: Wire) {
    && !Pol(s.cfg, w.connector).server
    && (w.stage > 0 ==> Ep(s, Other(w.connector)).connectSeq > 0)
  }

  ghost predicate Roles(s: State) {
    && RoleOk(s, A) && RoleOk(s, B)
    && forall i | 0 <= i < |s.wires| :: WireRoleOk(s, s.wires[i])
  }

  /** How a session that loses nothing may change. */
  ghost predicate Onward(e: Endpoint, e2: Endpoint, pol: Policy) {
    && (e.connectSeq > 0 ==> e2.connectSeq > 0)
    && (e.phase.Absent? && !e2.phase.Absent? ==> !pol.server || e2.connectSeq > 0)
    && (e2.phase.Standby? && !e.phase.Standby? ==> pol.server || pol.standby)
    && (e.onceReady ==> e2.onceReady) && (Opened(e2) && !Opened(e) ==> e2.onceReady)
  }

  lemma OnwardRole(s: State, t: State, p: Side)
    requires RoleOk(s, p) && t.cfg == s.cfg && Onward(Ep(s, p), Ep(t, p), Pol(s.cfg, p))
    ensures RoleOk(t, p)
  {
  }

  /** The wires keep their connectors; one may be added, or reach a later stage when its acceptor opens. */
  ghost predicate WiresOnward(s: State, t: State) {
    && |s.wires| <= |t.wires|
    && (forall i | 0 <= i < |s.wires| ::
          && t.wires[i].connector == s.wires[i].connector
          && (t.wires[i].stage > 0 ==> s.wires[i].stage > 0 || Ep(t, Other(t.wires[i].connector)).connectSeq > 0))
    && forall i | |s.wires| <= i < |t.wires| :: !Pol(s.cfg, t.wires[i].connector).server && t.wires[i].stage == 0
  }

  lemma RolesOnward(s: State, t: State)
    requires Roles(s) && t.cfg == s.cfg && WiresOnward(s, t)
    requires Onward(s.a, t.a, Pol(s.cfg, A)) && Onward(s.b, t.b, Pol(s.cfg, B))
    ensures Roles(t)
  {
    assert forall p: Side :: Onward(Ep(s, p), Ep(t, p), Pol(s.cfg, p));
    OnwardRole(s, t, A);
    OnwardRole(s, t, B);
    forall i | 0 <= i < |t.wires| ensures WireRoleOk(t, t.wires[i]) {
      if i < |s.wires| {
        assert WireRoleOk(s, s.wires[i]);
      }
    }
  }

  // ---------------------------------------------------------------- one step

  lemma FaultOnward(e: Endpoint, pol: Policy, torn: bool)
    requires |e.sent| <= e.outSeq
    ensures Onward(e, Fault(e, pol, torn), pol)
  {
    hide Requeue;
  }

  lemma ReceivedOnward(e: Endpoint, pk: Packet, pol: Policy)
    requires CanReceive(e, pk) && !(pk.Reply? && pk.decision.ResetSession?)
    requires pk.Reply? && pk.decision.RetrySession? ==> pk.decision.connectSeq > e.connectSeq
    ensures Onward(e, Received(e, pk), pol)
  {
    hide Discard, DiscardCount, Ids, IdList, AckCount, WasReset, NextGlobalSeq;
  }

  lemma SameWires(s: State, t: State, i: nat, w2: Wire)
    requires i < |s.wires| && t.wires == s.wires[i := w2] && w2.connector == s.wires[i].connector
    requires w2.stage > 0 ==> s.wires[i].stage > 0 || Ep(t, Other(w2.connector)).connectSeq > 0
    ensures WiresOnward(s, t)
  {
  }

  lemma HeadRaises(s: State, p: Side)
    requires Inv(s) && Enabled(s, Receive(p))
    ensures var pk := In(s.wires[Ep(s, p).wire.value], p).q[0];
            pk.Reply? && pk.decision.RetrySession? ==> pk.decision.connectSeq > Ep(s, p).connectSeq
  {
    hide SenderOk, Owned, Direction, Shape;
    assert SideOk(s, p);
    if In(s.wires[Ep(s, p).wire.value], p).q[0].Reply? {
      HeadAgrees(Ep(s, p), p, s.wires[Ep(s, p).wire.value]);
    }
  }

  /** A connect message that is read opens the session; any other packet that ends the negotiation comes after. */
  lemma ReceivedStage(e: Endpoint, pk: Packet, p: Side, w: Wire)
    requires Shape(w) && PhaseOnWire(e, p, w) && In(w, p).q != [] && In(w, p).q[0] == pk && CanReceive(e, pk)
    ensures StageAfter(w.stage, e, Received(e, pk), pk) > 0 ==>
              w.stage > 0 || (w.connector != p && Received(e, pk).connectSeq > 0)
  {
    hide Discard, DiscardCount, Ids, IdList, AckCount, WasReset;
    assert In(w, p).q[0] in In(w, p).q;
  }

  lemma ReceiveKeepsRoles(s: State, p: Side)
    requires Inv(s) && Roles(s) && Enabled(s, Receive(p))
    ensures Roles(Step(s, Receive(p)))
  {
    hide Inv, Roles, Onward, WiresOnward, Received, Response, DecisionAt, NextOutgoing, StageAfter, Shape, PhaseOnWire;
    var e := Ep(s, p);
    var i := e.wire.value;
    var t := Step(s, Receive(p));
    HeadRaises(s, p);
    NoResetOnItsWay(s, p);
    ReceivedOnward(e, In(s.wires[i], p).q[0], Pol(s.cfg, p));
    SameOnward(Ep(s, Other(p)), Pol(s.cfg, Other(p)));
    WhereFacts(s, p);
    ReceivedStage(e, In(s.wires[i], p).q[0], p, s.wires[i]);
    SameWires(s, t, i, t.wires[i]);
    RolesOnward(s, t);
  }

  lemma SameOnward(e: Endpoint, pol: Policy)
    ensures Onward(e, e, pol)
  {
  }

  lemma AcceptedOnward(s: State, i: nat, exact: bool, p: Side)
    requires Enabled(s, Accept(i, exact)) && !Resets(s, Accept(i, exact))
    ensures Onward(Ep(s, p), Ep(Step(s, Accept(i, exact)), p), Pol(s.cfg, p))
  {
    hide DecideSession, NextOutgoing, WasReset, StartOver, OpenReply, Exchange;
  }

  lemma AcceptedStage(s: State, i: nat, exact: bool)
    requires Inv(s) && Enabled(s, Accept(i, exact)) && !Resets(s, Accept(i, exact))
    ensures WiresOnward(s, Step(s, Accept(i, exact)))
  {
    hide Inv, WiresOnward, DecisionAt, NextOutgoing, WasReset, StartOver, OpenReply, Shape;
    UnadoptedFacts(s, i);
    SameWires(s, Step(s, Accept(i, exact)), i, Step(s, Accept(i, exact)).wires[i]);
  }

  lemma AcceptKeepsRoles(s: State, i: nat, exact: bool)
    requires Inv(s) && Roles(s) && Enabled(s, Accept(i, exact)) && !Resets(s, Accept(i, exact))
    ensures Roles(Step(s, Accept(i, exact)))
  {
    hide Inv, Roles, WiresOnward, Onward, Step, Enabled, Resets;
    AcceptedOnward(s, i, exact, A);
    AcceptedOnward(s, i, exact, B);
    AcceptedStage(s, i, exact);
    StepKeepsConfig(s, Accept(i, exact));
    RolesOnward(s, Step(s, Accept(i, exact)));
  }

  lemma LocalKeepsRoles(s: State, a: Action)
    requires Roles(s) && Enabled(s, a) && (a.Start? || a.Send? || a.Wake? || a.Ready? || a.Break?)
    ensures Roles(Step(s, a))
  {
    hide Roles, Enqueue, DecisionAt, NextOutgoing, Fault;
    var t := Step(s, a);
    if a.Break? {
      FaultOnward(Ep(s, a.p), Pol(s.cfg, a.p), a.torn);
    }
    assert WiresOnward(s, t);
    RolesOnward(s, t);
  }

  lemma WireKeepsRoles(s: State, a: Action)
    requires Roles(s) && Enabled(s, a) && (a.Attempt? || a.FinishReplace? || a.Write? || a.SendAck? || a.Cut?)
    ensures Roles(Step(s, a))
  {
    hide Roles, Requeue, DecisionAt, NextOutgoing;
    var t := Step(s, a);
    assert WiresOnward(s, t);
    RolesOnward(s, t);
  }

  lemma StepKeepsRoles(s: State, a: Action)
    requires Inv(s) && Roles(s) && Enabled(s, a) && !Resets(s, a)
    ensures Roles(Step(s, a))
  {
    hide Inv, Roles, Step, Enabled, Resets;
    match a {
      case Accept(i, exact) => AcceptKeepsRoles(s, i, exact);
      case Receive(p) => ReceiveKeepsRoles(s, p);
      case Start(_) => LocalKeepsRoles(s, a);
      case Send(_, _, _) => LocalKeepsRoles(s, a);
      case Wake(_) => LocalKeepsRoles(s, a);
      case Ready(_) => LocalKeepsRoles(s, a);
      case Break(_, _) => LocalKeepsRoles(s, a);
      case _ => WireKeepsRoles(s, a);
    }
  }

  lemma {:induction false} RunKeepsRoles(s: State, acts: seq<Action>, t: State)
    requires Good(s) && Roles(s) && Unreset(s, acts) && Run(s, acts, t)
    ensures Roles(t)
    decreases |acts|
  {
    hide Inv, HardOk, Roles, Step, Enabled, Resets;
    if acts != [] {
      StepKeepsGood(s, acts[0]);
      StepKeepsRoles(s, acts[0]);
      RunKeepsRoles(Step(s, acts[0]), acts[1..], t);
    }
  }

  lemma ReachableRoles(cfg: Config, t: State)
    requires Reachable(cfg, t)
    ensures Good(t) && Roles(t)
  {
    hide Inv, Run, Unreset;
    ReachableInv(cfg, t);
    var acts :| Unreset(Init(cfg), acts) && Run(Init(cfg), acts, t);
    InitInv(cfg);
    RunKeepsRoles(Init(cfg), acts, t);
  }

  /** The step Wake is what `handle_write` does to a connection that may not write, whatever a flush would do. */
  lemma WakeIsHandleWrite(s: State, p: Side, flushed: bool, torn: bool)
    requires Enabled(s, Wake(p)) && |Ep(s, p).sent| <= Ep(s, p).outSeq
    ensures Ep(Step(s, Wake(p)), p) == NotWritable(Ep(s, p), Pol(s.cfg, p), flushed, torn)
    ensures Ep(Step(s, Wake(p)), p).phase.Connecting?
  {
  }

  /**
   The session's own number again: in standby, and open between two messages, it tells the peer to raise it;
   in the middle of a message it answers like one that is still connecting, so the addresses decide.
   */
  lemma OwnNumberAgain(s: State, q: Side, exact: bool, g: nat)
    requires !Ep(s, q).phase.Absent? && !Ep(s, q).phase.Closed? && !Ep(s, q).replacing
    requires Ep(s, q).connectSeq > 0 && g >= Ep(s, q).peerGlobalSeq
    ensures var peerIsLower := if q.A? then s.cfg.addrB < s.cfg.addrA else s.cfg.addrA < s.cfg.addrB;
            DecisionAt(s, q, exact, ConnectMsg(Ep(s, q).connectSeq, g))
            == if Ep(s, q).phase.Standby? || (Ep(s, q).phase.Open? && exact) then RetrySession(Ep(s, q).connectSeq + 1)
               else if peerIsLower || Pol(s.cfg, q).server then Replace(false)
               else Decision.Wait
  {
  }
}
