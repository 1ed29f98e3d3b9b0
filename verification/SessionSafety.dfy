/**
 The invariant of the two-party session and its consequences: what a receiver has dispatched is a
 prefix of the sender's first-write order, nothing is lost, and no assert of the handshake fails.
 */
module SessionSafety {
  import opened Wrappers
  import opened SendQueue
  import opened Endpoints
  import opened Negotiation
  import opened Session

  // ---------------------------------------------------------------- one endpoint

  /** Nothing was written for the first time and nothing was received. */
  predicate Virgin(e: Endpoint) {
    e.log == [] && e.inSeq == 0
  }

  /**
   The sender window, with the finished messages as the log's acknowledged front. A session that
   never connected has exchanged nothing.
   */
  ghost predicate SenderOk(e: Endpoint) {
    && Window(e.outQ, e.sent, e.outSeq, e.log)
    && e.finished == e.log[..e.outSeq - |e.sent|]
    && (!e.phase.Open? && !e.phase.Replacing? ==> e.sent == [])
    && !e.phase.Closed?
    && (e.replacing <==> e.phase.Replacing? || e.phase.AcceptWaitConnect?)
    && (e.phase.Absent? ==> e == NO_ENDPOINT)
    && (e.connectSeq == 0 ==> Virgin(e) && !e.phase.Open? && !e.phase.AcceptWaitSeq? && !e.phase.AcceptReady?)
    && (e.hardReset ==> e.replacing)
  }

  // ---------------------------------------------------------------- shape of a wire

  ghost predicate Connects(q: seq<Packet>) { forall pk | pk in q :: pk.ConnectMsg? }

  ghost predicate Replies(q: seq<Packet>) { forall pk | pk in q :: pk.Reply? }

  ghost predicate Traffic(q: seq<Packet>) { forall pk | pk in q :: pk.Data? || pk.Ack? }

  /** What can be in the channels of a wire at each stage of its handshake. */
  ghost predicate Shape(w: Wire) {
    && w.stage <= 4
    && (w.stage > 0 ==> w.adopted)
    && (w.stage == 0 ==> Connects(w.forward.q) && Replies(w.back.q) && |w.forward.q| + |w.back.q| <= 1
                         && (w.adopted ==> forall pk | pk in w.back.q :: !pk.decision.Wait?))
    && (w.stage == 1 ==> w.forward.q == [] && |w.back.q| <= 2
                         && (|w.back.q| == 2 ==> w.back.q[0].SeqReply? && w.back.q[1].InSeq?)
                         && (|w.back.q| == 1 ==> w.back.q[0].SeqReply? || w.back.q[0].InSeq?))
    && (w.stage == 2 ==> w.back.q == []
                         && if w.forward.q == [] then !w.forward.alive
                            else w.forward.q[0].InSeq? && Traffic(w.forward.q[1..]))
    && (w.stage == 3 ==> Traffic(w.forward.q) && Traffic(w.back.q))
    && (w.stage == 4 ==> w.forward.q == []
                         && if w.back.q == [] then !w.back.alive
                            else w.back.q[0].ReadyReply? && Traffic(w.back.q[1..]))
  }

  /** The phase of a session agrees with the stage of the wire it is attached to. */
  ghost predicate PhaseOnWire(e: Endpoint, p: Side, w: Wire) {
    if p == w.connector then
      || (e.phase.WaitReply? && w.stage <= 1 && (w.back.q != [] ==> !w.back.q[0].InSeq?))
      || (e.phase.WaitReply? && w.stage == 4 && Virgin(e))
      || (e.phase.RaceWait? && w.stage == 0 && !w.adopted && w.forward.q == w.back.q == [])
      || (e.phase.WaitAckSeq? && w.stage == 1 && (w.back.q != [] ==> w.back.q[0].InSeq?))
      || (e.phase.ConnectReady? && 2 <= w.stage <= 3)
      || (e.phase.Open? && 2 <= w.stage <= 3)
    else
      && w.adopted
      && (|| (e.phase.Replacing? && w.stage == 0 && w.forward.q == w.back.q == [])
          || (e.phase.AcceptWaitConnect? && w.stage == 0)
          || (e.phase.AcceptWaitSeq? && 1 <= w.stage <= 2)
          || (e.phase.AcceptReady? && w.stage >= 3)
          || (e.phase.Open? && w.stage >= 3))
  }

  /** A negotiation packet agrees with the connect_seq of the connector that waits for the reply. */
  ghost predicate NumbersAgree(connectSeq: nat, pk: Packet) {
    match pk
    case ConnectMsg(c, _) => c == connectSeq
    case Reply(d) =>
      (d.RetryGlobal? || d.RetrySession? || d.Wait?) && (d.RetrySession? ==> d.connectSeq > connectSeq)
    case SeqReply(c, _) => c == connectSeq + 1
    case ReadyReply(c, _) => c == connectSeq + 1
    case _ => true
  }

  ghost predicate NumbersOnWire(e: Endpoint, p: Side, w: Wire) {
    w.connector == p && e.phase.WaitReply? ==>
      && (forall pk | pk in w.forward.q :: NumbersAgree(e.connectSeq, pk))
      && (forall pk | pk in w.back.q :: NumbersAgree(e.connectSeq, pk))
  }

  ghost predicate HandshakeOk(e: Endpoint, p: Side, wires: seq<Wire>) {
    && (e.phase.WaitAckSeq? || e.phase.ConnectReady? ==> e.phase.connectSeq == e.connectSeq + 1)
    && match e.wire
       case None => e.phase.Absent? || e.phase.Standby? || e.phase.Connecting?
       case Some(i) => i < |wires| && PhaseOnWire(e, p, wires[i]) && NumbersOnWire(e, p, wires[i])
  }

  // ---------------------------------------------------------------- one direction of the traffic

  /** The data in q continues, without gap, the numbers up to n. */
  ghost predicate Chain(q: seq<Packet>, n: nat) {
    q == [] ||
    if q[0].Data? then q[0].seqNo == n + 1 && Chain(q[1..], n + 1) else Chain(q[1..], n)
  }

  ghost function DataCount(q: seq<Packet>): nat {
    if q == [] then 0 else (if q[0].Data? then 1 else 0) + DataCount(q[1..])
  }

  lemma {:induction false} ChainPush(q: seq<Packet>, n: nat, pk: Packet)
    requires Chain(q, n)
    requires pk.Data? ==> pk.seqNo == n + DataCount(q) + 1
    ensures Chain(q + [pk], n)
    ensures DataCount(q + [pk]) == DataCount(q) + (if pk.Data? then 1 else 0)
  {
    if q == [] {
      assert [pk][1..] == [];
    } else {
      assert (q + [pk])[1..] == q[1..] + [pk];
      ChainPush(q[1..], if q[0].Data? then n + 1 else n, pk);
    }
  }

  lemma {:induction false} ChainPrefix(q: seq<Packet>, n: nat, k: nat)
    requires Chain(q, n) && k <= |q|
    ensures Chain(q[..k], n)
  {
    if k > 0 {
      assert q[..k][1..] == q[1..][..k - 1];
      ChainPrefix(q[1..], if q[0].Data? then n + 1 else n, k - 1);
    }
  }

  lemma {:induction false} DataCountPrefix(q: seq<Packet>, k: nat)
    requires k <= |q|
    ensures DataCount(q[..k]) <= DataCount(q)
  {
    if k > 0 {
      assert q[..k][1..] == q[1..][..k - 1];
      DataCountPrefix(q[1..], k - 1);
    }
  }

  lemma {:induction false} NoDataChain(q: seq<Packet>, n: nat)
    requires forall pk | pk in q :: !pk.Data?
    ensures Chain(q, n) && DataCount(q) == 0
  {
    if q != [] {
      NoDataChain(q[1..], n);
    }
  }

  /** A packet from the sender names the message its number belongs to. */
  ghost predicate FromSender(pk: Packet, log: seq<nat>) {
    pk.Data? ==> 1 <= pk.seqNo <= |log| && log[pk.seqNo - 1] == pk.id
  }

  /** A packet from the receiver claims no more than it received. */
  ghost predicate FromReceiver(pk: Packet, inSeq: nat) {
    (pk.Ack? || pk.InSeq?) ==> pk.n <= inSeq
  }

  /** Both ends can exchange data: the sender has read the receiver's number on this wire. */
  predicate Synced(e: Endpoint) {
    e.phase.ConnectReady? || e.phase.AcceptReady? || e.phase.Open?
  }

  ghost predicate PacketsOk(w: Wire, p: Side, log: seq<nat>, inSeq: nat) {
    && (forall pk | pk in Out(w, p).q :: FromSender(pk, log))
    && (forall pk | pk in In(w, p).q :: FromReceiver(pk, inSeq))
  }

  /** The sender's acknowledged front, the receiver's front and what it gave to the application. */
  ghost predicate Fronts(e: Endpoint, f: Endpoint) {
    && e.outSeq - |e.sent| <= f.inSeq <= |e.log|
    && f.dispatched == e.log[..f.inSeq]
  }

  /** The front of p's messages once it has read every acknowledgement of q. */
  ghost function Acked(q: seq<Packet>, front: int): int {
    if q == [] then front else Acked(q[1..], if q[0].Ack? && q[0].n > front then q[0].n else front)
  }

  lemma {:induction false} AckedPush(q: seq<Packet>, front: int, pk: Packet)
    ensures Acked(q + [pk], front)
         == if pk.Ack? && pk.n > Acked(q, front) then pk.n else Acked(q, front)
  {
    if q == [] {
      assert [pk][1..] == [];
    } else {
      assert (q + [pk])[1..] == q[1..] + [pk];
      AckedPush(q[1..], if q[0].Ack? && q[0].n > front then q[0].n else front, pk);
    }
  }

  lemma {:induction false} AckedWithin(q: seq<Packet>, front: int, n: nat)
    requires front <= n && forall pk | pk in q && pk.Ack? :: pk.n <= n
    ensures front <= Acked(q, front) <= n
  {
    if q != [] {
      AckedWithin(q[1..], if q[0].Ack? && q[0].n > front then q[0].n else front, n);
    }
  }

  /**
   While both ends are on the wire: the receiver is not ahead of the sender, and unless it owes an
   acknowledgement those under way tell the sender of everything it has received.
   */
  ghost predicate Acknowledges(e: Endpoint, f: Endpoint, w: Wire, p: Side) {
    e.wire == f.wire && Synced(e) ==>
      && f.inSeq + DataCount(Out(w, p).q) <= e.outSeq
      && (In(w, p).alive ==> f.ackLeft > 0 || Acked(In(w, p).q, e.outSeq - |e.sent|) == f.inSeq)
  }

  /** The wire the receiver f of p's messages reads from. */
  ghost predicate Link(e: Endpoint, f: Endpoint, w: Wire, p: Side) {
    && Chain(Out(w, p).q, f.inSeq)
    && (forall pk | pk in In(w, p).q && pk.InSeq? :: pk.n == f.inSeq)
    && (e.wire == f.wire && Synced(e) && Out(w, p).alive ==> f.inSeq + DataCount(Out(w, p).q) == e.outSeq)
    && Acknowledges(e, f, w, p)
  }

  /** Everything about the messages from p to the other side. */
  ghost predicate Direction(s: State, p: Side) {
    var e, f := Ep(s, p), Ep(s, Other(p));
    && Fronts(e, f)
    && (forall i | 0 <= i < |s.wires| :: PacketsOk(s.wires[i], p, e.log, f.inSeq))
    && (Attached(s, Other(p)) ==> Link(e, f, s.wires[f.wire.value], p))
  }

  ghost predicate SideOk(s: State, p: Side) {
    && SenderOk(Ep(s, p))
    && Owned(Ep(s, p))
    && HandshakeOk(Ep(s, p), p, s.wires)
    && Direction(s, p)
  }

  ghost predicate Inv(s: State) {
    && SideOk(s, A) && SideOk(s, B)
    && (forall i | 0 <= i < |s.wires| :: Shape(s.wires[i]))
  }

  lemma InitInv(cfg: Config)
    ensures Inv(Init(cfg))
  {
    assert forall p :: Ep(Init(cfg), p) == NO_ENDPOINT;
  }

  // ---------------------------------------------------------------- steps that leave the wires alone

  /** Log, acknowledged front and received front stay; the wire stays or is given up. */
  ghost predicate Quiet(e: Endpoint, e': Endpoint) {
    && e'.inSeq == e.inSeq && e'.dispatched == e.dispatched && e'.log == e.log && e'.ackLeft == e.ackLeft
    && e'.outSeq - |e'.sent| == e.outSeq - |e.sent|
    && (e'.wire == e.wire || e'.wire == None)
    && (e'.wire.Some? && Synced(e') ==> Synced(e) && e'.outSeq == e.outSeq)
  }

  /** A quiet change of one endpoint leaves both directions of the traffic as they were. */
  lemma EndpointStep(s: State, p: Side, e': Endpoint)
    requires Inv(s) && Quiet(Ep(s, p), e')
    requires SenderOk(e') && Owned(e') && HandshakeOk(e', p, s.wires)
    ensures Inv(WithEp(s, p, e'))
  {
    hide SenderOk, Owned, HandshakeOk, Shape, Chain, DataCount, PacketsOk;
    var t := WithEp(s, p, e');
    var q := Other(p);
    assert Ep(t, p) == e' && Ep(t, q) == Ep(s, q) && t.wires == s.wires;
    assert Direction(t, p);
    assert Direction(t, q);
    assert SideOk(t, p) && SideOk(t, q);
  }

  lemma SendKeepsSenderOk(e: Endpoint, prio: nat, id: nat)
    requires SenderOk(e) && !e.phase.Absent? && prio <= HIGHEST
    ensures SenderOk(SendMessage(e, prio, id))
  {
    hide Window, Enqueue;
    EnqueueKeepsWindow(e.outQ, e.sent, e.outSeq, e.log, prio, id);
  }

  lemma SendIsQuiet(e: Endpoint, p: Side, wires: seq<Wire>, prio: nat, id: nat)
    requires HandshakeOk(e, p, wires)
    ensures HandshakeOk(SendMessage(e, prio, id), p, wires) && Quiet(e, SendMessage(e, prio, id))
  {
    hide Enqueue, NumbersAgree;
  }

  lemma SendKeepsInv(s: State, p: Side, prio: nat, id: nat)
    requires Inv(s) && Enabled(s, Send(p, prio, id))
    ensures Inv(Step(s, Send(p, prio, id)))
  {
    hide Direction, Shape, SenderOk, Owned, HandshakeOk, Quiet, SendMessage, DecisionAt, NextOutgoing;
    assert SideOk(s, p);
    SendKeepsSenderOk(Ep(s, p), prio, id);
    SendMessageKeepsOwned(Ep(s, p), prio, id);
    SendIsQuiet(Ep(s, p), p, s.wires, prio, id);
    EndpointStep(s, p, SendMessage(Ep(s, p), prio, id));
  }

  lemma StartKeepsInv(s: State, p: Side)
    requires Inv(s) && Enabled(s, Start(p))
    ensures Inv(Step(s, Start(p)))
  {
    hide Direction, Shape, Window, PacketsOk, Queued, Ids;
    EndpointStep(s, p, Ep(s, p).(phase := Phase.Connecting));
  }

  lemma WakeKeepsInv(s: State, p: Side)
    requires Inv(s) && Enabled(s, Wake(p))
    ensures Inv(Step(s, Wake(p)))
  {
    hide Direction, Shape, Window, PacketsOk, Queued, Ids;
    EndpointStep(s, p, Ep(s, p).(phase := Phase.Connecting));
  }

  lemma BecomeOpenFacts(e: Endpoint, p: Side, wires: seq<Wire>)
    requires SenderOk(e) && Owned(e) && HandshakeOk(e, p, wires)
    requires e.phase.ConnectReady? || e.phase.AcceptReady?
    ensures SenderOk(BecomeOpen(e)) && Owned(BecomeOpen(e))
    ensures HandshakeOk(BecomeOpen(e), p, wires) && Quiet(e, BecomeOpen(e))
  {
    hide Window, Queued, Ids, Shape;
  }

  lemma ReadyKeepsInv(s: State, p: Side)
    requires Inv(s) && Enabled(s, Ready(p))
    ensures Inv(Step(s, Ready(p)))
  {
    hide Direction, Shape, SenderOk, Owned, HandshakeOk, Quiet, BecomeOpen;
    assert SideOk(s, p);
    BecomeOpenFacts(Ep(s, p), p, s.wires);
    EndpointStep(s, p, BecomeOpen(Ep(s, p)));
  }

  lemma FaultKeepsSenderOk(e: Endpoint, pol: Policy, torn: bool)
    requires SenderOk(e) && !(e.phase.AcceptWaitConnect? && !e.replacing)
    ensures |e.sent| <= e.outSeq && SenderOk(Fault(e, pol, torn))
  {
    RequeueKeepsWindow(e.outQ, e.sent, e.outSeq, e.log);
    assert |e.sent| <= e.outSeq;
    hide Window;
  }

  lemma FaultIsQuiet(e: Endpoint, p: Side, wires: seq<Wire>, pol: Policy, torn: bool)
    requires |e.sent| <= e.outSeq
    requires HandshakeOk(e, p, wires) && !Fault(e, pol, torn).phase.Closed?
    ensures var f := Fault(e, pol, torn);
            Quiet(e, f) && HandshakeOk(f, p, wires)
  {
    hide Requeue;
  }

  lemma BreakKeepsInv(s: State, p: Side, torn: bool)
    requires Inv(s)
    ensures Enabled(s, Break(p, torn)) && Inv(Step(s, Break(p, torn)))
  {
    hide Direction, Shape, Window, PacketsOk, Owned, HandshakeOk, Fault, Quiet;
    var e := Ep(s, p);
    FaultKeepsSenderOk(e, Pol(s.cfg, p), torn);
    FaultKeepsOwned(e, Pol(s.cfg, p), torn);
    FaultIsQuiet(e, p, s.wires, Pol(s.cfg, p), torn);
    EndpointStep(s, p, Fault(e, Pol(s.cfg, p), torn));
  }

  // ---------------------------------------------------------------- steps on one wire

  /** The state in which p's session became e2 and wire i became w2. */
  function Changed(s: State, p: Side, e2: Endpoint, i: nat, w2: Wire): State
    requires i < |s.wires|
  {
    WithEp(s, p, e2).(wires := s.wires[i := w2])
  }

  /** What has to hold of a changed endpoint and its wire for the invariant to survive. */
  ghost predicate Fits(e: Endpoint, e2: Endpoint, f: Endpoint, p: Side, i: nat, w2: Wire) {
    && SenderOk(e2) && Owned(e2) && Shape(w2)
    && (e2 == e || e2.wire == Some(i))
    && (e2.phase.WaitAckSeq? || e2.phase.ConnectReady? ==> e2.phase.connectSeq == e2.connectSeq + 1)
    && e.log <= e2.log && e.inSeq <= e2.inSeq
    && Fronts(e2, f) && Fronts(f, e2)
    && PacketsOk(w2, p, e2.log, f.inSeq) && PacketsOk(w2, Other(p), f.log, e2.inSeq)
    && (e2.wire == Some(i) ==>
          Link(f, e2, w2, Other(p)) && PhaseOnWire(e2, p, w2) && NumbersOnWire(e2, p, w2))
    && (f.wire == Some(i) ==>
          Link(e2, f, w2, p) && PhaseOnWire(f, Other(p), w2) && NumbersOnWire(f, Other(p), w2))
  }

  lemma PacketsOkGrows(w: Wire, p: Side, log: seq<nat>, log2: seq<nat>, n: nat, n2: nat)
    requires PacketsOk(w, p, log, n) && log <= log2 && n <= n2
    ensures PacketsOk(w, p, log2, n2)
  {
  }

  lemma WireStepDirections(s: State, p: Side, e2: Endpoint, i: nat, w2: Wire)
    requires Inv(s) && i < |s.wires|
    requires Fits(Ep(s, p), e2, Ep(s, Other(p)), p, i, w2)
    ensures Direction(Changed(s, p, e2, i, w2), p)
    ensures Direction(Changed(s, p, e2, i, w2), Other(p))
  {
    hide SenderOk, Owned, HandshakeOk, Shape, Chain, DataCount, PacketsOk, Fronts, PhaseOnWire, NumbersOnWire;
    var t := Changed(s, p, e2, i, w2);
    var q := Other(p);
    var e, f := Ep(s, p), Ep(s, q);
    assert Ep(t, p) == e2 && Ep(t, q) == f && Other(q) == p;
    forall j | 0 <= j < |t.wires|
      ensures PacketsOk(t.wires[j], p, e2.log, f.inSeq) && PacketsOk(t.wires[j], q, f.log, e2.inSeq)
    {
      if j != i {
        PacketsOkGrows(s.wires[j], p, e.log, e2.log, f.inSeq, f.inSeq);
        PacketsOkGrows(s.wires[j], q, f.log, f.log, e.inSeq, e2.inSeq);
      }
    }
  }

  lemma HandshakeFrame(e: Endpoint, p: Side, wires: seq<Wire>, i: nat, w2: Wire)
    requires i < |wires|
    requires e.phase.WaitAckSeq? || e.phase.ConnectReady? ==> e.phase.connectSeq == e.connectSeq + 1
    requires e.wire == Some(i) || HandshakeOk(e, p, wires)
    requires e.wire == Some(i) ==> PhaseOnWire(e, p, w2) && NumbersOnWire(e, p, w2)
    ensures HandshakeOk(e, p, wires[i := w2])
  {
    hide PhaseOnWire, NumbersOnWire;
  }

  lemma WireStepHandshakes(s: State, p: Side, e2: Endpoint, i: nat, w2: Wire)
    requires Inv(s) && i < |s.wires|
    requires Fits(Ep(s, p), e2, Ep(s, Other(p)), p, i, w2)
    ensures HandshakeOk(e2, p, s.wires[i := w2])
    ensures HandshakeOk(Ep(s, Other(p)), Other(p), s.wires[i := w2])
  {
    hide SenderOk, Owned, Direction, Shape, PhaseOnWire, NumbersOnWire, Link, Fronts, PacketsOk;
    HandshakeFrame(e2, p, s.wires, i, w2);
    HandshakeFrame(Ep(s, Other(p)), Other(p), s.wires, i, w2);
  }

  lemma WireStep(s: State, p: Side, e2: Endpoint, i: nat, w2: Wire)
    requires Inv(s) && i < |s.wires|
    requires Fits(Ep(s, p), e2, Ep(s, Other(p)), p, i, w2)
    ensures Inv(Changed(s, p, e2, i, w2))
  {
    hide SenderOk, Owned, Direction, Shape, HandshakeOk, PhaseOnWire, NumbersOnWire, Link, Fronts, PacketsOk;
    WireStepDirections(s, p, e2, i, w2);
    WireStepHandshakes(s, p, e2, i, w2);
    var t := Changed(s, p, e2, i, w2);
    var q := Other(p);
    assert Ep(t, p) == e2 && Ep(t, q) == Ep(s, q);
    assert SideOk(t, p) && SideOk(t, q);
  }

  /** The invariant, read at one wire. */
  lemma InvAt(s: State, p: Side, i: nat)
    requires Inv(s) && i < |s.wires|
    ensures Fits(Ep(s, p), Ep(s, p), Ep(s, Other(p)), p, i, s.wires[i])
  {
    hide SenderOk, Owned, Shape, PhaseOnWire, NumbersOnWire, Link, Fronts, PacketsOk;
    assert Other(Other(p)) == p;
    assert SideOk(s, p) && SideOk(s, Other(p));
  }

  // ---------------------------------------------------------------- open traffic

  ghost predicate IsTraffic(pk: Packet) {
    pk.Data? || pk.Ack?
  }

  lemma TrafficAppended(q: seq<Packet>, pk: Packet)
    requires IsTraffic(pk)
    ensures Traffic(q) ==> Traffic(q + [pk])
    ensures q != [] && Traffic(q[1..]) ==> (q + [pk])[0] == q[0] && Traffic((q + [pk])[1..])
  {
    if q != [] {
      assert (q + [pk])[1..] == q[1..] + [pk];
    }
  }

  lemma PushTrafficShape(e: Endpoint, p: Side, w: Wire, pk: Packet)
    requires Shape(w) && PhaseOnWire(e, p, w) && e.phase.Open? && IsTraffic(pk)
    ensures Shape(WithOut(w, p, Push(Out(w, p), [pk])))
  {
    hide Traffic, Connects, Replies;
    TrafficAppended(Out(w, p).q, pk);
  }

  lemma PushPackets(w: Wire, p: Side, pk: Packet, log: seq<nat>, log2: seq<nat>, n: nat, flog: seq<nat>, m: nat)
    requires PacketsOk(w, p, log, n) && PacketsOk(w, Other(p), flog, m) && log <= log2
    requires FromSender(pk, log2) && FromReceiver(pk, m)
    ensures var w2 := WithOut(w, p, Push(Out(w, p), [pk]));
            PacketsOk(w2, p, log2, n) && PacketsOk(w2, Other(p), flog, m)
  {
  }

  lemma PushLinks(e: Endpoint, e2: Endpoint, f: Endpoint, p: Side, i: nat, w: Wire, pk: Packet)
    requires e.wire == e2.wire == Some(i) && e.phase.Open? && e2.phase.Open? && IsTraffic(pk) && e2.inSeq == e.inSeq
    requires Link(f, e, w, Other(p)) && (f.wire == Some(i) ==> Link(e, f, w, p))
    requires pk.Data? ==> pk.seqNo == e2.outSeq == e.outSeq + 1 && e2.ackLeft == e.ackLeft
    requires pk.Ack? ==> pk.n == e.inSeq && e2.outSeq == e.outSeq
    requires e2.outSeq - |e2.sent| == e.outSeq - |e.sent| && f.outSeq - |f.sent| <= e.inSeq
    requires forall x | x in Out(w, p).q :: FromReceiver(x, e.inSeq)
    ensures var w2 := WithOut(w, p, Push(Out(w, p), [pk]));
            Link(f, e2, w2, Other(p)) && (f.wire == Some(i) ==> Link(e2, f, w2, p))
  {
    hide Chain, DataCount, Acked;
    if Out(w, p).alive && f.wire == Some(i) {
      ChainPush(Out(w, p).q, f.inSeq, pk);
    }
    AckedPush(Out(w, p).q, f.outSeq - |f.sent|, pk);
    AckedWithin(Out(w, p).q, f.outSeq - |f.sent|, e.inSeq);
  }

  lemma PushPhases(e: Endpoint, e2: Endpoint, f: Endpoint, p: Side, i: nat, w: Wire, pk: Packet)
    requires e.wire == e2.wire == Some(i) && e.phase.Open? && e2.phase.Open? && IsTraffic(pk)
    requires PhaseOnWire(e, p, w) && NumbersOnWire(e, p, w)
    requires f.wire == Some(i) ==> PhaseOnWire(f, Other(p), w) && NumbersOnWire(f, Other(p), w)
    ensures var w2 := WithOut(w, p, Push(Out(w, p), [pk]));
            && PhaseOnWire(e2, p, w2) && NumbersOnWire(e2, p, w2)
            && (f.wire == Some(i) ==> PhaseOnWire(f, Other(p), w2) && NumbersOnWire(f, Other(p), w2))
  {
  }

  lemma FromReceiverAt(e: Endpoint, f: Endpoint, p: Side, w: Wire)
    requires PacketsOk(w, Other(p), f.log, e.inSeq)
    ensures forall x | x in Out(w, p).q :: FromReceiver(x, e.inSeq)
  {
  }

  /** p, which is open on wire w, appends one data or ack packet. */
  lemma PushTrafficFits(e: Endpoint, e2: Endpoint, f: Endpoint, p: Side, i: nat, w: Wire, pk: Packet)
    requires Fits(e, e, f, p, i, w) && e.wire == Some(i) && e.phase.Open? && IsTraffic(pk)
    requires SenderOk(e2) && Owned(e2) && e2.phase.Open? && e2.wire == e.wire
    requires e.log <= e2.log && e2.inSeq == e.inSeq && e2.dispatched == e.dispatched
    requires e2.outSeq - |e2.sent| == e.outSeq - |e.sent|
    requires FromSender(pk, e2.log) && FromReceiver(pk, e.inSeq)
    requires pk.Data? ==> pk.seqNo == e2.outSeq == e.outSeq + 1 && e2.ackLeft == e.ackLeft
    requires pk.Ack? ==> pk.n == e.inSeq && e2.outSeq == e.outSeq
    ensures Fits(e, e2, f, p, i, WithOut(w, p, Push(Out(w, p), [pk])))
  {
    hide SenderOk, Owned, Shape, Link, PacketsOk, PhaseOnWire, NumbersOnWire, FromSender, FromReceiver, WithOut,
         Push, Out;
    PushTrafficShape(e, p, w, pk);
    PushPackets(w, p, pk, e.log, e2.log, f.inSeq, f.log, e.inSeq);
    FromReceiverAt(e, f, p, w);
    PushLinks(e, e2, f, p, i, w, pk);
    PushPhases(e, e2, f, p, i, w, pk);
  }

  lemma SomethingQueued(q: OutQ)
    requires NextOutgoing(q).0.Some?
    ensures q != map[]
  {
  }

  lemma WriteOneKeepsSenderOk(e: Endpoint)
    requires SenderOk(e) && e.phase.Open? && NextOutgoing(e.outQ).0.Some?
    ensures SenderOk(WriteOne(e))
  {
    hide NextOutgoing, Numbered, ListAt;
    SomethingQueued(e.outQ);
    WriteKeepsWindow(e.outQ, e.sent, e.outSeq, e.log);
    assert e.log[..e.outSeq - |e.sent|] == WriteOne(e).log[..e.outSeq - |e.sent|];
  }

  lemma WriteOneFacts(e: Endpoint)
    requires SenderOk(e) && e.phase.Open? && NextOutgoing(e.outQ).0.Some?
    ensures var e2 := WriteOne(e);
            && e2.phase.Open? && e2.wire == e.wire
            && e.log <= e2.log && e2.inSeq == e.inSeq && e2.dispatched == e.dispatched && e2.ackLeft == e.ackLeft
            && |e2.sent| == |e.sent| + 1 && e2.outSeq == e.outSeq + 1
            && FromSender(Data(e2.sent[|e.sent|].id, e2.outSeq), e2.log)
  {
    hide NextOutgoing, ListAt;
    WriteOneKeepsSenderOk(e);
    var e2 := WriteOne(e);
    assert e2.sent[|e.sent|] == Numbered(e2.log, e2.outSeq - |e2.sent|, e2.outSeq)[|e.sent|];
  }

  lemma WriteKeepsInv(s: State, p: Side)
    requires Inv(s) && Enabled(s, Write(p))
    ensures Inv(Step(s, Write(p)))
  {
    hide SenderOk, Owned, Direction, Shape, HandshakeOk, WriteOne, Fits, FromSender, NextOutgoing;
    var e := Ep(s, p);
    var i := e.wire.value;
    assert SideOk(s, p);
    InvAt(s, p, i);
    WriteOneKeepsSenderOk(e);
    WriteOneKeepsOwned(e);
    WriteOneFacts(e);
    var e2 := WriteOne(e);
    var pk := Data(e2.sent[|e.sent|].id, e2.outSeq);
    PushTrafficFits(e, e2, Ep(s, Other(p)), p, i, s.wires[i], pk);
    WireStep(s, p, e2, i, WithOut(s.wires[i], p, Push(Out(s.wires[i], p), [pk])));
  }

  lemma AckLeftIrrelevant(e: Endpoint)
    requires SenderOk(e) && Owned(e) && e.phase.Open?
    ensures SenderOk(e.(ackLeft := 0)) && Owned(e.(ackLeft := 0))
  {
    hide Window, Queued, Ids;
  }

  lemma SendAckKeepsInv(s: State, p: Side)
    requires Inv(s) && Enabled(s, SendAck(p))
    ensures Inv(Step(s, SendAck(p)))
  {
    hide SenderOk, Owned, Direction, Shape, HandshakeOk, Fits, NextOutgoing;
    var e := Ep(s, p);
    var i := e.wire.value;
    assert SideOk(s, p);
    AckLeftIrrelevant(e);
    InvAt(s, p, i);
    PushTrafficFits(e, e.(ackLeft := 0), Ep(s, Other(p)), p, i, s.wires[i], Ack(e.inSeq));
    WireStep(s, p, e.(ackLeft := 0), i, WithOut(s.wires[i], p, Push(Out(s.wires[i], p), [Ack(e.inSeq)])));
  }

  lemma ExchangeChannels(w: Wire, p: Side, pk: seq<Packet>)
    requires In(w, p).q != []
    ensures var w2 := Exchange(w, p, pk);
            && w2.connector == w.connector && w2.stage == w.stage && w2.adopted == w.adopted
            && In(w2, p) == Channel(In(w, p).q[1..], In(w, p).alive)
            && Out(w2, p) == Push(Out(w, p), pk)
            && (pk == [] ==> Out(w2, p) == Out(w, p))
            && w2.(stage := w.stage) == w2
  {
  }

  lemma PopChain(q: seq<Packet>, n: nat)
    requires q != [] && Chain(q, n)
    ensures q[0].Data? ==> q[0].seqNo == n + 1 && Chain(q[1..], n + 1) && DataCount(q) == 1 + DataCount(q[1..])
    ensures !q[0].Data? ==> Chain(q[1..], n) && DataCount(q) == DataCount(q[1..])
  {
  }

  lemma IdsOfNumbered(log: seq<nat>, from: nat, last: nat)
    requires from <= last <= |log|
    ensures IdList(Numbered(log, from, last)) == log[from..last]
  {
  }

  /** Where an acknowledgement of n leaves the front of the unacknowledged messages. */
  function AckedFront(e: Endpoint, n: nat): int {
    var front := e.outSeq - |e.sent|;
    if n <= front then front else if n >= e.outSeq then e.outSeq else n
  }

  lemma HandleAckFacts(e: Endpoint, n: nat)
    requires SenderOk(e) && Owned(e)
    ensures var e2 := HandleAck(e, n);
            && SenderOk(e2) && Owned(e2) && e2.outSeq == e.outSeq
            && e2.outSeq - |e2.sent| == AckedFront(e, n)
  {
    hide Queued, Ids;
    var k := AckCount(e.sent, n);
    var base := e.outSeq - |e.sent|;
    AckKeepsWindow(e.outQ, e.sent, e.outSeq, e.log, n);
    HandleAckKeepsOwned(e, n);
    assert e.sent[..k] == Numbered(e.log, base, base + k);
    IdsOfNumbered(e.log, base, base + k);
    assert e.log[..base] + e.log[base..base + k] == e.log[..base + k];
  }

  lemma FrontBound(e: Endpoint)
    requires SenderOk(e)
    ensures 0 <= e.outSeq - |e.sent| <= e.outSeq <= |e.log|
  {
    hide Numbered, ListAt, NoEmptyList, AtMostHighest;
  }

  /** Taking one packet that is no data leaves what the reader expects next unchanged. */
  lemma ReceiveAckFits(e: Endpoint, f: Endpoint, p: Side, i: nat, w: Wire, n: nat)
    requires Fits(e, e, f, p, i, w) && e.wire == Some(i) && e.phase.Open?
    requires In(w, p).q != [] && In(w, p).q[0] == Ack(n)
    ensures Fits(e, HandleAck(e, n), f, p, i, Exchange(w, p, []))
  {
    hide SenderOk, Owned, Chain, DataCount, AckCount, Exchange;
    HandleAckFacts(e, n);
    FrontBound(e);
    ExchangeChannels(w, p, []);
    assert FromReceiver(Ack(n), f.inSeq);
    PopChain(In(w, p).q, e.inSeq);
  }
}
