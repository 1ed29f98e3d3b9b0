/**
 Two lossless endpoints that talk over sockets which can be cut at any point: the protocol of
 hardware_async/rdma/backed_RDMAReliableConnected.cc as a state machine over its steps.

 A socket is a pair of FIFO channels. Every connect attempt opens a new one; its accepting end is an
 anonymous connection until it is adopted by the session (`replace` or `open` in
 `handle_connect_msg`). Every answer of the acceptor is a step, also those that reset a session.
 */
module Session {
  import opened Wrappers
  import opened SendQueue
  import opened Endpoints
  import opened N = Negotiation

  datatype Side = A | B

  function Other(p: Side): Side {
    if p.A? then B else A
  }

  datatype Packet =
    | ConnectMsg(connectSeq: nat, globalSeq: nat)
    | Reply(decision: Decision)                       // a retry, RESETSESSION or WAIT
    | SeqReply(connectSeq: nat, globalSeq: nat)
    | ReadyReply(connectSeq: nat, globalSeq: nat)
    | InSeq(n: nat)
    | Data(id: nat, seqNo: nat)
    | Ack(n: nat)

  datatype Channel = Channel(q: seq<Packet>, alive: bool)

  /**
   `forward` runs from the connector to the acceptor. `stage` counts how far the handshake came:
   0 negotiating, 1 SEQ sent, 2 connector's in_seq sent, 3 both ends agree, 4 READY sent.
   */
  datatype Wire = Wire(connector: Side, forward: Channel, back: Channel, stage: nat, adopted: bool)

  datatype Config = Config(polA: Policy, polB: Policy, addrA: nat, addrB: nat)

  datatype State = State(cfg: Config, a: Endpoint, b: Endpoint, wires: seq<Wire>)

  function Pol(cfg: Config, p: Side): Policy {
    if p.A? then cfg.polA else cfg.polB
  }

  function Ep(s: State, p: Side): Endpoint {
    if p.A? then s.a else s.b
  }

  function WithEp(s: State, p: Side, e: Endpoint): State {
    if p.A? then s.(a := e) else s.(b := e)
  }

  /** The channel on which p reads. */
  function In(w: Wire, p: Side): Channel {
    if p == w.connector then w.back else w.forward
  }

  function Out(w: Wire, p: Side): Channel {
    In(w, Other(p))
  }

  function WithIn(w: Wire, p: Side, c: Channel): Wire {
    if p == w.connector then w.(back := c) else w.(forward := c)
  }

  function WithOut(w: Wire, p: Side, c: Channel): Wire {
    WithIn(w, Other(p), c)
  }

  /** Bytes written to a cut channel vanish. */
  function Push(c: Channel, pk: seq<Packet>): Channel {
    if c.alive then c.(q := c.q + pk) else c
  }

  /** p takes the head of its incoming channel and writes pk to the outgoing one. */
  function Exchange(w: Wire, p: Side, pk: seq<Packet>): Wire
    requires In(w, p).q != []
  {
    var w1 := WithIn(w, p, In(w, p).(q := In(w, p).q[1..]));
    WithOut(w1, p, Push(Out(w1, p), pk))
  }

  // ---------------------------------------------------------------- steps

  datatype Action =
    | Start(p: Side)
    | Send(p: Side, prio: nat, id: nat)
    | Wake(p: Side)
    | Attempt(p: Side)
    | Accept(w: nat, exact: bool)
    | FinishReplace(p: Side)
    | Receive(p: Side)
    | Ready(p: Side)
    | Write(p: Side)
    | SendAck(p: Side)
    | Break(p: Side, torn: bool)
    | Cut(w: nat, forward: bool, keep: nat)

  /** The session as the accepting side's `handle_connect_msg` sees it; `exact` tells STATE_OPEN from its substates. */
  function ExistingOf(e: Endpoint, pol: Policy, exact: bool): Option<Existing> {
    if e.phase.Absent? then None
    else
      var st := if e.phase.Closed? then ExistingState.Closed
                else if e.phase.Standby? then InStandby
                else if e.phase.Open? && exact then InOpen
                else Busy;
      Some(Existing(st, e.replacing, false, pol.server, e.connectSeq, e.peerGlobalSeq))
  }

  function AcceptorOf(cfg: Config, q: Side, replacing: bool): Acceptor {
    Acceptor(Pol(cfg, q).resetcheck, replacing,
             if q.A? then cfg.addrA else cfg.addrB, if q.A? then cfg.addrB else cfg.addrA)
  }

  function DecisionAt(s: State, q: Side, exact: bool, c: Packet): Decision
    requires c.ConnectMsg?
  {
    Decide(ExistingOf(Ep(s, q), Pol(s.cfg, q), exact), AcceptorOf(s.cfg, q, false),
           N.Connect(c.connectSeq, c.globalSeq))
  }

  /** p's session holds the end of an existing socket. */
  predicate Attached(s: State, p: Side) {
    Ep(s, p).wire.Some? && Ep(s, p).wire.value < |s.wires|
  }

  predicate CanReceive(e: Endpoint, pk: Packet) {
    match pk
    case Reply(d) => e.phase.WaitReply? && (IsRetry(d) || d.Wait?)
    case SeqReply(_, _) => e.phase.WaitReply?
    case ReadyReply(_, _) => e.phase.WaitReply?
    case ConnectMsg(_, _) => e.phase.AcceptWaitConnect? && e.replacing
    case InSeq(_) => e.phase.WaitAckSeq? || e.phase.AcceptWaitSeq?
    case Data(_, _) => e.phase.Open?
    case Ack(_) => e.phase.Open?
  }

  /** (The acceptor also opens over a closed session; no session of these two sides is ever closed.) */
  ghost predicate Enabled(s: State, act: Action) {
    match act
    case Start(p) => Ep(s, p).phase.Absent? && !Pol(s.cfg, p).server
    case Send(p, prio, id) => !Ep(s, p).phase.Absent? && prio <= HIGHEST
    case Wake(p) => Ep(s, p).phase.Standby? && !Pol(s.cfg, p).server && Ep(s, p).outQ != map[]
    case Attempt(p) => Ep(s, p).phase.Connecting? && !Pol(s.cfg, p).server
    case Accept(i, exact) =>
      && i < |s.wires| && !s.wires[i].adopted
      && s.wires[i].forward.q != [] && s.wires[i].forward.q[0].ConnectMsg?
      && var q := Other(s.wires[i].connector);
         (DecisionAt(s, q, exact, s.wires[i].forward.q[0]).Open? ==> Ep(s, q).phase.Absent?)
    case FinishReplace(p) =>
      Ep(s, p).phase.Replacing? && |Ep(s, p).sent| <= Ep(s, p).outSeq && Attached(s, p)
    case Receive(p) =>
      && Attached(s, p)
      && In(s.wires[Ep(s, p).wire.value], p).q != []
      && CanReceive(Ep(s, p), In(s.wires[Ep(s, p).wire.value], p).q[0])
    case Ready(p) => Ep(s, p).phase.ConnectReady? || Ep(s, p).phase.AcceptReady?
    case Write(p) => Ep(s, p).phase.Open? && NextOutgoing(Ep(s, p).outQ).0.Some? && Attached(s, p)
    case SendAck(p) => Ep(s, p).phase.Open? && Ep(s, p).ackLeft > 0 && Attached(s, p)
    case Break(p, torn) => |Ep(s, p).sent| <= Ep(s, p).outSeq
    case Cut(i, forward, keep) =>
      i < |s.wires| && keep <= |(if forward then s.wires[i].forward else s.wires[i].back).q|
  }

  /** After a hard reset of the peer no numbers are exchanged: the receiving side starts at 0. */
  ghost function StartOver(e: Endpoint): Endpoint {
    DiscardRequeuedUpTo(e, 0).(hardReset := false, inSeq := 0)
  }

  /** The session opens on the wire whose connect message asked for connectSeq c and globalSeq g. */
  ghost function OpenSession(e: Endpoint, c: nat, g: nat): Endpoint {
    (if e.hardReset then StartOver(e) else e)
      .(phase := if e.hardReset then AcceptReady else AcceptWaitSeq, replacing := false, onceReady := true,
    connectSeq := c + 1, peerGlobalSeq := g, counter := NextGlobalSeq(e.counter, 0))
  }

  /** What the accepting side writes when it opens: READY, or SEQ and its last received number. */
  function OpenReply(e: Endpoint): seq<Packet> {
    if e.phase.AcceptReady? then [ReadyReply(e.connectSeq, e.counter)]
    else [SeqReply(e.connectSeq, e.counter), InSeq(e.inSeq)]
  }

  function OpenStage(e: Endpoint): nat {
    if e.phase.AcceptReady? then 4 else 1
  }

  /** `replace`: the session moves to wire i. A hard reset empties it first if the policy checks for resets. */
  ghost function Adopt(e: Endpoint, hard: bool, resetcheck: bool, i: nat): Endpoint {
    (if hard && resetcheck then WasReset(e) else e)
      .(phase := Replacing, replacing := true, hardReset := e.hardReset || hard, wire := Some(i))
  }

  ghost function AcceptStep(s: State, i: nat, exact: bool): State
    requires Enabled(s, Accept(i, exact))
  {
    var w := s.wires[i];
    var q := Other(w.connector);
    var c := w.forward.q[0];
    var e := Ep(s, q);
    var d := DecisionAt(s, q, exact, c);
    if d.Replace? then
      WithEp(s, q, Adopt(e, d.hardReset, Pol(s.cfg, q).resetcheck, i))
        .(wires := s.wires[i := Exchange(w, q, []).(adopted := true)])
    else if d.Open? then
      var e' := OpenSession(e, c.connectSeq, c.globalSeq).(wire := Some(i));
      WithEp(s, q, e').(wires := s.wires[i := Exchange(w, q, OpenReply(e')).(adopted := true, stage := OpenStage(e'))])
    else
      s.(wires := s.wires[i := Exchange(w, q, [Reply(d)])])
  }

  predicate IsReply(pk: Packet) {
    pk.Reply? || pk.SeqReply? || pk.ReadyReply?
  }

  /** `handle_connect_reply`. */
  ghost function AfterReply(e: Endpoint, pk: Packet): Endpoint
    requires CanReceive(e, pk) && IsReply(pk)
  {
    if pk.SeqReply? then e.(phase := WaitAckSeq(pk.connectSeq, pk.globalSeq))
    else if pk.ReadyReply? then e.(phase := ConnectReady(pk.connectSeq, pk.globalSeq))
    else if pk.decision.ResetSession? then WasReset(e)
    else if pk.decision.Wait? then e.(phase := RaceWait)
    else
      var k := AfterRetry(Connector(e.connectSeq, e.globalSeq, e.counter, false), pk.decision);
      e.(connectSeq := k.connectSeq, globalSeq := k.globalSeq, counter := k.counter)
  }

  /** After a retry the connect message goes out again. */
  function NextConnect(e: Endpoint): seq<Packet> {
    if e.phase.WaitReply? then [ConnectMsg(e.connectSeq, e.globalSeq)] else []
  }

  /** The session after it has taken a packet off its socket. */
  ghost function Received(e: Endpoint, pk: Packet): Endpoint
    requires CanReceive(e, pk)
  {
    match pk
    case ConnectMsg(c, g) => OpenSession(e, c, g)
    case InSeq(n) =>
      DiscardRequeuedUpTo(e, n)
        .(phase := if e.phase.WaitAckSeq? then ConnectReady(e.phase.connectSeq, e.phase.globalSeq) else Phase.Open)
    case Data(id, k) => Deliver(e, id, k)
    case Ack(n) => HandleAck(e, n)
    case _ => AfterReply(e, pk)
  }

  /** What it writes: the connect message again, the answer to one, or its last received number. */
  function Response(e: Endpoint, e': Endpoint, pk: Packet): seq<Packet> {
    match pk
    case Reply(_) => NextConnect(e')
    case ConnectMsg(_, _) => OpenReply(e')
    case InSeq(_) => if e.phase.WaitAckSeq? then [InSeq(e.inSeq)] else []
    case _ => []
  }

  function StageAfter(stage: nat, e: Endpoint, e': Endpoint, pk: Packet): nat {
    match pk
    case ReadyReply(_, _) => 3
    case ConnectMsg(_, _) => OpenStage(e')
    case InSeq(_) => if e.phase.WaitAckSeq? then 2 else 3
    case _ => stage
  }

  ghost function ReceiveStep(s: State, p: Side): State
    requires Enabled(s, Receive(p))
  {
    var e := Ep(s, p);
    var i := e.wire.value;
    var w := s.wires[i];
    var pk := In(w, p).q[0];
    var e' := Received(e, pk);
    WithEp(s, p, e')
      .(wires := s.wires[i := Exchange(w, p, Response(e, e', pk)).(stage := StageAfter(w.stage, e, e', pk))])
  }

  /** STATE_CONNECTING_READY and STATE_ACCEPTING_READY. */
  function BecomeOpen(e: Endpoint): Endpoint
    requires e.phase.ConnectReady? || e.phase.AcceptReady?
  {
    if e.phase.AcceptReady? then e.(phase := Phase.Open)
    else e.(phase := Phase.Open, onceReady := true,
         connectSeq := e.connectSeq + 1, peerGlobalSeq := e.phase.globalSeq)
  }

  /** One direction of a socket dies; at most its first packets still arrive. */
  function CutWire(w: Wire, forward: bool, keep: nat): Wire
    requires keep <= |(if forward then w.forward else w.back).q|
  {
    if forward then w.(forward := Channel(w.forward.q[..keep], false))
    else w.(back := Channel(w.back.q[..keep], false))
  }

  function PushOn(s: State, p: Side, i: nat, pk: Packet): seq<Wire>
    requires i < |s.wires|
  {
    s.wires[i := WithOut(s.wires[i], p, Push(Out(s.wires[i], p), [pk]))]
  }

  ghost function Step(s: State, act: Action): State
    requires Enabled(s, act)
  {
    match act
    case Start(p) => WithEp(s, p, Ep(s, p).(phase := Phase.Connecting))
    case Send(p, prio, id) => WithEp(s, p, SendMessage(Ep(s, p), prio, id))
    case Wake(p) => WithEp(s, p, Ep(s, p).(phase := Phase.Connecting))
    case Attempt(p) =>
      var e := Ep(s, p);
      var g := NextGlobalSeq(e.counter, 0);
      WithEp(s, p, e.(phase := WaitReply, wire := Some(|s.wires|), globalSeq := g, counter := g))
        .(wires := s.wires + [Wire(p, Channel([ConnectMsg(e.connectSeq, g)], true), Channel([], true), 0, false)])
    case Accept(i, exact) => AcceptStep(s, i, exact)
    case FinishReplace(p) =>
      var e := Ep(s, p);
      var i := e.wire.value;
      WithEp(s, p, RequeueSent(e).(phase := AcceptWaitConnect))
        .(wires := PushOn(s, p, i, Reply(RetryGlobal(e.peerGlobalSeq))))
    case Receive(p) => ReceiveStep(s, p)
    case Ready(p) => WithEp(s, p, BecomeOpen(Ep(s, p)))
    case Write(p) =>
      var e := Ep(s, p);
      var e' := WriteOne(e);
      WithEp(s, p, e').(wires := PushOn(s, p, e.wire.value, Data(e'.sent[|e.sent|].id, e'.outSeq)))
    case SendAck(p) =>
      var e := Ep(s, p);
      WithEp(s, p, e.(ackLeft := 0)).(wires := PushOn(s, p, e.wire.value, Ack(e.inSeq)))
    case Break(p, torn) => WithEp(s, p, Fault(Ep(s, p), Pol(s.cfg, p), torn))
    case Cut(i, forward, keep) =>
      s.(wires := s.wires[i := CutWire(s.wires[i], forward, keep)])
  }

  function Init(cfg: Config): State {
    State(cfg, NO_ENDPOINT, NO_ENDPOINT, [])
  }

  /**
   The decisions that reset a session: RESETSESSION, which empties the connector, and the adoption
   after a hard reset where the policy checks for resets, which empties the acceptor.
   */
  predicate Losing(d: Decision, resetcheck: bool) {
    d.ResetSession? || (d == Replace(true) && resetcheck)
  }

  ghost predicate Resets(s: State, act: Action)
    requires Enabled(s, act)
  {
    act.Accept? &&
    var q := Other(s.wires[act.w].connector);
    Losing(DecisionAt(s, q, act.exact, s.wires[act.w].forward.q[0]), Pol(s.cfg, q).resetcheck)
  }

  /** The states a run of the given actions goes through; a run stops at an action it cannot take. */
  ghost predicate Run(s: State, acts: seq<Action>, t: State)
    decreases |acts|
  {
    if acts == [] then s == t
    else Enabled(s, acts[0]) && Run(Step(s, acts[0]), acts[1..], t)
  }

  /** The actions can be taken, and none of them resets a session. */
  ghost predicate Unreset(s: State, acts: seq<Action>)
    decreases |acts|
  {
    acts == [] || (Enabled(s, acts[0]) && !Resets(s, acts[0]) && Unreset(Step(s, acts[0]), acts[1..]))
  }
}
