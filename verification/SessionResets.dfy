/**
 When a session is reset: the exact condition on the connect message and the existing session, runs in
 which messages are lost that way although nobody was restarted, and runs in which it never happens.
 */
module SessionResets {
  import opened Wrappers
  import opened SendQueue
  import opened Endpoints
  import opened N = Negotiation
  import opened Session
  import opened SessionSafety
  import opened SessionSteps
  import opened SessionExample

  // ---------------------------------------------------------------- the exact condition

  /**
   A decision resets a session if and only if the message names a session where none exists, or the
   policy checks for resets and exactly one of the two connect_seq is 0, the message being recent.
   */
  lemma LosingIff(existing: Option<Existing>, acc: Acceptor, c: N.Connect)
    requires existing.Some? ==> !existing.value.lossy
    ensures Losing(Decide(existing, acc, c), acc.resetcheck) <==>
              match existing
              case None => !acc.replacing && c.connectSeq > 0
              case Some(e) =>
                && !e.state.Closed? && !e.replacing && c.globalSeq >= e.peerGlobalSeq
                && acc.resetcheck && (c.connectSeq == 0 <==> e.connectSeq > 0)
  {
  }

  /** The same on the machine: what the acceptor's session and the head of the wire have to be. */
  lemma ResetsIff(s: State, i: nat, exact: bool)
    requires Inv(s) && Enabled(s, Accept(i, exact))
    ensures var q := Other(s.wires[i].connector);
            var e, c := Ep(s, q), s.wires[i].forward.q[0];
            Resets(s, Accept(i, exact)) <==>
              if e.phase.Absent? then c.connectSeq > 0
              else !e.replacing && c.globalSeq >= e.peerGlobalSeq
                   && Pol(s.cfg, q).resetcheck && (c.connectSeq == 0 <==> e.connectSeq > 0)
  {
    hide Direction, HandshakeOk, Owned, Shape, Window, DecideSession;
    var q := Other(s.wires[i].connector);
    var c := s.wires[i].forward.q[0];
    assert SideOk(s, q);
    LosingIff(ExistingOf(Ep(s, q), Pol(s.cfg, q), exact), AcceptorOf(s.cfg, q, false),
              N.Connect(c.connectSeq, c.globalSeq));
  }

  // ---------------------------------------------------------------- runs without resets

  /** A fault that raises connect_seq before the other side has any session. */
  ghost predicate Hasty(s: State, act: Action)
    requires Enabled(s, act)
  {
    && act.Break? && Ep(s, Other(act.p)).phase.Absent?
    && Ep(Step(s, act), act.p).connectSeq > Ep(s, act.p).connectSeq
  }

  /** The actions can be taken, and no fault is hasty. */
  ghost predicate Patient(s: State, acts: seq<Action>)
    decreases |acts|
  {
    acts == [] || (Enabled(s, acts[0]) && !Hasty(s, acts[0]) && Patient(Step(s, acts[0]), acts[1..]))
  }

  ghost predicate NoResetcheck(cfg: Config) {
    !cfg.polA.resetcheck && !cfg.polB.resetcheck
  }

  ghost predicate FirstTry(w: Wire, p: Side) {
    w.connector == p && w.back.q == [] && (forall pk | pk in w.forward.q && pk.ConnectMsg? :: pk.connectSeq == 0)
  }

  /** As long as q has no session the other side has none to name either. */
  ghost predicate Untouched(s: State, q: Side) {
    var p := Other(q);
    Ep(s, q).phase.Absent? ==>
      && Ep(s, p).connectSeq == 0
      && (Ep(s, p).phase.Absent? || Ep(s, p).phase.Connecting? || Ep(s, p).phase.Standby? || Ep(s, p).phase.WaitReply?)
      && (forall i | 0 <= i < |s.wires| :: FirstTry(s.wires[i], p))
  }

  lemma UntouchedNoReset(s: State, act: Action)
    requires Enabled(s, act) && NoResetcheck(s.cfg) && Untouched(s, A) && Untouched(s, B)
    ensures !Resets(s, act)
  {
    if act.Accept? && Ep(s, Other(s.wires[act.w].connector)).phase.Absent? {
      var c := s.wires[act.w].forward.q[0];
      assert FirstTry(s.wires[act.w], s.wires[act.w].connector);
      assert c in s.wires[act.w].forward.q;
    }
  }

  lemma StepKeepsConfig(s: State, act: Action)
    requires Enabled(s, act)
    ensures Step(s, act).cfg == s.cfg
  {
    hide Fault, WriteOne, Received, Adopt, OpenSession, Exchange, Enabled;
  }

  lemma ReceivedIsPresent(e: Endpoint, pk: Packet)
    requires CanReceive(e, pk)
    ensures !Received(e, pk).phase.Absent?
  {
    hide AfterRetry, Discard, DiscardCount, Ids, IdList, Queued, AckCount;
  }

  /** A session that exists stays. */
  lemma StaysPresent(s: State, act: Action, q: Side)
    requires Enabled(s, act) && !Ep(s, q).phase.Absent?
    ensures !Ep(Step(s, act), q).phase.Absent?
  {
    hide Received, WasReset, Decide, NextOutgoing, Exchange;
    if act.Receive? {
      ReceivedIsPresent(Ep(s, act.p), In(s.wires[Ep(s, act.p).wire.value], act.p).q[0]);
    }
  }

  /** The first connect message that q handles gives it a session. */
  lemma AcceptBeforeFirst(s: State, act: Action, q: Side)
    requires act.Accept? && Enabled(s, act) && Untouched(s, q) && Ep(s, q).phase.Absent?
    ensures Untouched(Step(s, act), q)
  {
    hide WasReset, DecideSession, NextOutgoing, OpenReply, OpenStage, NextGlobalSeq, Discard;
    assert FirstTry(s.wires[act.w], Other(q));
  }

  lemma LocalBeforeFirst(s: State, act: Action, q: Side)
    requires act.Start? || act.Send? || act.Wake? || act.Ready? || act.Break?
    requires Enabled(s, act) && !Hasty(s, act) && Untouched(s, q) && Ep(s, q).phase.Absent?
    ensures Untouched(Step(s, act), q)
  {
    hide FirstTry, Decide, NextOutgoing, Requeue, Enqueue;
  }

  /** What the other side does while q has no session. */
  lemma WireBeforeFirst(s: State, act: Action, q: Side)
    requires act.Attempt? || act.FinishReplace? || act.Receive? || act.Write? || act.SendAck? || act.Cut?
    requires Enabled(s, act) && !Hasty(s, act) && Untouched(s, q) && Ep(s, q).phase.Absent?
    ensures Untouched(Step(s, act), q)
  {
    hide Received, WasReset, Decide, NextOutgoing, Requeue, Exchange, WriteOne, Enqueue;
  }

  lemma StepKeepsUntouched(s: State, act: Action, q: Side)
    requires Enabled(s, act) && !Hasty(s, act) && Untouched(s, q)
    ensures Untouched(Step(s, act), q)
  {
    hide Enabled, Step, Hasty;
    if Ep(s, q).phase.Absent? {
      if act.Accept? {
        AcceptBeforeFirst(s, act, q);
      } else if act.Start? || act.Send? || act.Wake? || act.Ready? || act.Break? {
        LocalBeforeFirst(s, act, q);
      } else {
        WireBeforeFirst(s, act, q);
      }
    } else {
      StaysPresent(s, act, q);
    }
  }

  lemma {:induction false} PatientRunsResetNothing(s: State, acts: seq<Action>)
    requires NoResetcheck(s.cfg) && Untouched(s, A) && Untouched(s, B) && Patient(s, acts)
    ensures Unreset(s, acts)
    decreases |acts|
  {
    hide Untouched, Hasty, Enabled, Step, Resets;
    if acts != [] {
      UntouchedNoReset(s, acts[0]);
      StepKeepsConfig(s, acts[0]);
      StepKeepsUntouched(s, acts[0], A);
      StepKeepsUntouched(s, acts[0], B);
      PatientRunsResetNothing(Step(s, acts[0]), acts[1..]);
    }
  }

  /** From nothing: without resetcheck, a run without a hasty fault resets no session. */
  lemma PatientRunsFromNothing(cfg: Config, acts: seq<Action>)
    requires NoResetcheck(cfg) && Patient(Init(cfg), acts)
    ensures Unreset(Init(cfg), acts)
  {
    PatientRunsResetNothing(Init(cfg), acts);
  }

  // ---------------------------------------------------------------- what a reset loses

  /**
   A reset releases every reference and finishes nothing, so it is harmless only if nothing was held. All
   numbers start again, and the connection counts as never ready.
   */
  lemma ResetLosesWhatIsHeld(e: Endpoint)
    requires Owned(e) && !e.phase.Closed?
    ensures WasReset(e).refs == multiset{} && WasReset(e).finished == e.finished
    ensures Owned(WasReset(e)) <==> e.refs == multiset{}
    ensures var t := WasReset(e);
            && t.outQ == map[] && t.sent == [] && t.outSeq == t.inSeq == t.connectSeq == t.ackLeft == 0 && !t.onceReady
            && t.phase == e.phase && t.wire == e.wire && t.dispatched == e.dispatched
  {
    hide Ids, Queued;
    assert Ids([]) == multiset{} && Queued(map[]) == multiset{} by { NothingHeld(); }
    if Owned(WasReset(e)) {
      assert e.refs + multiset(e.finished) == multiset(e.finished);
      assert e.refs == (e.refs + multiset(e.finished)) - multiset(e.finished);
    }
  }

  lemma OneHeld(p: nat, id: nat)
    ensures Queued(map[p := [Msg(id, 0)]]) == multiset{id}
  {
    QueuedUpdate(map[], p, [Msg(id, 0)]);
    IdsOne(Msg(id, 0));
    NothingHeld();
  }

  lemma Pair(s: State, a: Action, t: State, b: Action, u: State)
    requires Enabled(s, a) && t == Step(s, a) && Enabled(t, b) && u == Step(t, b)
    ensures Run(s, [a, b], u)
  {
    hide Enabled, Step;
    assert [a, b][1..] == [b] && [b][1..] == [];
    assert Run(u, [], u);
    assert Run(t, [b], u);
  }

  function HastyClient(): Endpoint {
    Client1().(wire := Some(1), connectSeq := 1, globalSeq := 2, counter := 2)
  }

  /** The client gives up its first socket in the middle of a write, and tries again with connect_seq 1. */
  lemma GivesUp(cfg: Config) returns (acts: seq<Action>)
    requires cfg.polA == CLIENT && cfg.polB == SERVER
    ensures var w := Net([ConnectMsg(0, 1)], [], 0, false);
            Run(State(cfg, Client1(), NO_ENDPOINT, [w]), acts,
                State(cfg, HastyClient(), NO_ENDPOINT, [w, Net([ConnectMsg(1, 2)], [], 0, false)]))
  {
    var w := Net([ConnectMsg(0, 1)], [], 0, false);
    var s := State(cfg, Client1(), NO_ENDPOINT, [w]);
    var t := State(cfg, Client1().(phase := Phase.Connecting, wire := None, connectSeq := 1), NO_ENDPOINT, [w]);
    var u := State(cfg, HastyClient(), NO_ENDPOINT, [w, Net([ConnectMsg(1, 2)], [], 0, false)]);
    acts := [Break(A, true), Attempt(A)];
    assert Client1().outQ != map[] by { assert 127 in Client1().outQ; }
    assert Step(s, acts[0]) == t;
    Swapped(w, u.wires[1], u.wires[1]);
    assert Step(t, acts[1]) == u;
    Pair(s, acts[0], t, acts[1], u);
  }

  /** The server knows no session, and the client drops its message. */
  lemma IsReset(cfg: Config) returns (acts: seq<Action>, a: Endpoint, wires: seq<Wire>)
    requires cfg.polA == CLIENT && cfg.polB == SERVER
    ensures var w := Net([ConnectMsg(0, 1)], [], 0, false);
            Run(State(cfg, HastyClient(), NO_ENDPOINT, [w, Net([ConnectMsg(1, 2)], [], 0, false)]), acts,
                State(cfg, a, NO_ENDPOINT, wires))
    ensures a == WasReset(HastyClient()) && a.refs == multiset{}
  {
    hide Queued, Ids, Exchange, NextOutgoing;
    var w := Net([ConnectMsg(0, 1)], [], 0, false);
    var s := State(cfg, HastyClient(), NO_ENDPOINT, [w, Net([ConnectMsg(1, 2)], [], 0, false)]);
    var t := State(cfg, HastyClient(), NO_ENDPOINT, [w, Net([], [Reply(ResetSession)], 0, false)]);
    a, wires := WasReset(HastyClient()), [w, Net([ConnectMsg(0, 2)], [], 0, false)];
    var u := State(cfg, a, NO_ENDPOINT, wires);
    acts := [Accept(1, true), Receive(A)];
    AtServer([ConnectMsg(1, 2)], [], 0, false, [Reply(ResetSession)], [], [Reply(ResetSession)]);
    Swapped(w, s.wires[1], t.wires[1]);
    assert Step(s, acts[0]) == t;
    AtClient([], [Reply(ResetSession)], 0, false, [ConnectMsg(0, 2)], [ConnectMsg(0, 2)], []);
    Swapped(w, t.wires[1], u.wires[1]);
    assert Step(t, acts[1]) == u;
    Pair(s, acts[0], t, acts[1], u);
    OneHeld(127, 7);
    NothingHeld();
  }

  /**
   A lossless session loses a message without a restart and without resetcheck: the only fault is the
   client's own, before its first connect message was written completely.
   */
  lemma HastyFaultLosesMessage(cfg: Config) returns (acts: seq<Action>, t: State)
    requires cfg.polA == CLIENT && cfg.polB == SERVER
    ensures Run(Init(cfg), acts, t)
    ensures t.a.accepted == [7] && !t.a.phase.Closed?
    ensures t.a.outQ == map[] && t.a.sent == [] && t.a.refs == multiset{}
    ensures t.a.finished == [] && t.b.dispatched == []
  {
    hide Run, Enabled, Step, Queued, Ids;
    var r1 := SessionExample.Connects(cfg);
    var r2 := GivesUp(cfg);
    var r3, a, wires := IsReset(cfg);
    var w := Net([ConnectMsg(0, 1)], [], 0, false);
    var s1 := State(cfg, Client1(), NO_ENDPOINT, [w]);
    var s2 := State(cfg, HastyClient(), NO_ENDPOINT, [w, Net([ConnectMsg(1, 2)], [], 0, false)]);
    t := State(cfg, a, NO_ENDPOINT, wires);
    Join(Init(cfg), r1, s1, r2, s2);
    Join(Init(cfg), r1 + r2, s2, r3, t);
    acts := r1 + r2 + r3;
  }

  // ---------------------------------------------------------------- a server that checks for resets

  const CHECKING := Policy(true, false, true)

  function IdleClient(): Endpoint {
    NO_ENDPOINT.(phase := WaitReply, wire := Some(0), globalSeq := 1, counter := 1)
  }

  function BusyServer(): Endpoint {
    Server2().(outQ := map[127 := [Msg(9, 0)]], refs := multiset{9}, accepted := [9])
  }

  function Answered(): Wire {
    Net([], [SeqReply(1, 1), InSeq(0)], 1, true)
  }

  /** The server accepts the first socket. */
  lemma FirstSocket(cfg: Config) returns (acts: seq<Action>)
    requires cfg.polA == CLIENT && cfg.polB == CHECKING
    ensures Run(Init(cfg), acts, State(cfg, IdleClient(), Server2(), [Answered()]))
  {
    hide Exchange, NextOutgoing, DiscardRequeuedUpTo;
    var s := Init(cfg);
    var t := Step(s, Start(A));
    var u := Step(t, Attempt(A));
    var v := State(cfg, IdleClient(), Server2(), [Answered()]);
    acts := [Start(A), Attempt(A), Accept(0, true)];
    assert u == State(cfg, IdleClient(), NO_ENDPOINT, [Net([ConnectMsg(0, 1)], [], 0, false)]);
    AtServer([ConnectMsg(0, 1)], [], 0, false, [SeqReply(1, 1), InSeq(0)], [], [SeqReply(1, 1), InSeq(0)]);
    Swapped(u.wires[0], v.wires[0], v.wires[0]);
    assert Step(u, acts[2]) == v;
    Three(s, acts[0], t, acts[1], u, acts[2], v);
  }

  /** The server's application sends, the client's socket breaks before the reply arrives. */
  lemma SecondSocket(cfg: Config) returns (acts: seq<Action>)
    requires cfg.polA == CLIENT && cfg.polB == CHECKING
    ensures Run(State(cfg, IdleClient(), Server2(), [Answered()]), acts,
                State(cfg, IdleClient().(wire := Some(1), globalSeq := 2, counter := 2), BusyServer(),
                      [Answered(), Net([ConnectMsg(0, 2)], [], 0, false)]))
  {
    var s := State(cfg, IdleClient(), Server2(), [Answered()]);
    assert ListAt(map[], 127) + [Msg(9, 0)] == [Msg(9, 0)];
    var t := State(cfg, IdleClient(), BusyServer(), [Answered()]);
    var u := State(cfg, IdleClient().(phase := Phase.Connecting, wire := None), BusyServer(), [Answered()]);
    var v := State(cfg, IdleClient().(wire := Some(1), globalSeq := 2, counter := 2), BusyServer(),
                   [Answered(), Net([ConnectMsg(0, 2)], [], 0, false)]);
    acts := [Send(B, 127, 9), Break(A, false), Attempt(A)];
    assert Step(s, acts[0]) == t;
    assert Step(t, acts[1]) == u;
    Swapped(Answered(), v.wires[1], v.wires[1]);
    assert Step(u, acts[2]) == v;
    Three(s, acts[0], t, acts[1], u, acts[2], v);
  }

  /** With resetcheck a cut during the first handshake makes the server drop what it had queued. */
  lemma CutHandshakeLosesMessage(cfg: Config) returns (acts: seq<Action>, t: State)
    requires cfg.polA == CLIENT && cfg.polB == CHECKING
    ensures Run(Init(cfg), acts, t)
    ensures t.b.accepted == [9] && !t.b.phase.Closed?
    ensures t.b.outQ == map[] && t.b.sent == [] && t.b.refs == multiset{}
    ensures t.b.finished == [] && t.a.dispatched == []
  {
    hide Run, Enabled, Step, Queued, Ids;
    var r1 := FirstSocket(cfg);
    var r2 := SecondSocket(cfg);
    var s1 := State(cfg, IdleClient(), Server2(), [Answered()]);
    var s2 := State(cfg, IdleClient().(wire := Some(1), globalSeq := 2, counter := 2), BusyServer(),
                    [Answered(), Net([ConnectMsg(0, 2)], [], 0, false)]);
    Join(Init(cfg), r1, s1, r2, s2);
    t := Emptied(s2);
    acts := r1 + r2 + [Accept(1, true)];
    Join(Init(cfg), r1 + r2, s2, [Accept(1, true)], t);
  }

  lemma Emptied(s: State) returns (t: State)
    requires s.cfg.polB == CHECKING && s.b == BusyServer() && !s.a.phase.Absent?
    requires s.wires == [Answered(), Net([ConnectMsg(0, 2)], [], 0, false)]
    ensures Run(s, [Accept(1, true)], t) && t.a == s.a && t.b == Adopt(s.b, true, true, 1) && t.b.refs == multiset{}
  {
    hide Queued, Ids, Exchange, NextOutgoing;
    assert Enabled(s, Accept(1, true));
    t := Step(s, Accept(1, true));
    assert [Accept(1, true)][1..] == [];
    assert Run(t, [], t);
    OneHeld(127, 9);
    NothingHeld();
  }
}
