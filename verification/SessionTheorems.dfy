/**
 What holds in every state that any run of the two-party session reaches.
 */
module SessionTheorems {
  import opened Wrappers
  import opened SendQueue
  import opened Endpoints
  import opened Negotiation
  import opened Session
  import opened SessionSafety
  import opened SessionSteps
  import opened SessionReady

  /** The whole invariant: of the two endpoints and their wires, and of a claimed reset. */
  ghost predicate Good(s: State) {
    Inv(s) && HardOk(s, A) && HardOk(s, B)
  }

  /** A side that was told of a reset reads a connect message only from a peer that is new. */
  lemma ClaimIsTrue(s: State, p: Side)
    requires Good(s) && Enabled(s, Receive(p)) && Ep(s, p).phase.AcceptWaitConnect?
    ensures Ep(s, p).hardReset ==> Virgin(Ep(s, Other(p)))
  {
    hide Inv, Virgin, DecisionAt, NextOutgoing;
    HardFacts(s, p);
    assert HardOk(s, p);
  }

  lemma StepKeepsInv(s: State, act: Action)
    requires Good(s) && Enabled(s, act) && !Resets(s, act)
    ensures Inv(Step(s, act))
  {
    hide Inv, Step, Enabled, HardOk, Resets;
    match act {
      case Start(p) => StartKeepsInv(s, p);
      case Send(p, prio, id) => SendKeepsInv(s, p, prio, id);
      case Wake(p) => WakeKeepsInv(s, p);
      case Attempt(p) => AttemptKeepsInv(s, p);
      case Accept(i, exact) => AcceptKeepsInv(s, i, exact);
      case FinishReplace(p) => FinishReplaceKeepsInv(s, p);
      case Receive(p) => ReceiveKeepsInv(s, p);
      case Ready(p) => ReadyKeepsInv(s, p);
      case Write(p) => WriteKeepsInv(s, p);
      case SendAck(p) => SendAckKeepsInv(s, p);
      case Break(p, torn) => BreakKeepsInv(s, p, torn);
      case Cut(i, forward, keep) => CutKeepsInv(s, i, forward, keep);
    }
  }

  lemma ReceiveKeepsInv(s: State, p: Side)
    requires Good(s) && Enabled(s, Receive(p))
    ensures Inv(Step(s, Receive(p)))
  {
    hide Inv, Step, HardOk, Virgin;
    var e := Ep(s, p);
    if e.phase.Open? {
      ReceiveTrafficKeepsInv(s, p);
    } else if e.phase.WaitReply? {
      ReceiveReplyKeepsInv(s, p);
    } else if e.phase.AcceptWaitConnect? {
      ClaimIsTrue(s, p);
      ReceiveConnectKeepsInv(s, p);
    } else {
      ReceiveInSeqKeepsInv(s, p);
    }
  }

  lemma StepKeepsHard(s: State, act: Action, q: Side)
    requires Inv(s) && Enabled(s, act) && !Resets(s, act) && HardOk(s, q)
    ensures HardOk(Step(s, act), q)
  {
    hide Inv, Step, HardOk;
    match act {
      case Attempt(p) => AttemptKeepsHard(s, p, q);
      case Accept(i, exact) =>
        if q == s.wires[i].connector {
          AcceptKeepsPeerHard(s, i, exact);
        } else {
          AcceptKeepsOwnHard(s, i, exact);
        }
      case FinishReplace(p) => FinishReplaceKeepsHard(s, p, q);
      case Receive(p) =>
        if q == p {
          ReceiveKeepsOwnHard(s, p);
        } else {
          ReceiveKeepsPeerHard(s, p);
        }
      case Write(p) => WriteKeepsHard(s, p, q);
      case SendAck(p) => SendAckKeepsHard(s, p, q);
      case Break(p, torn) => BreakKeepsHard(s, p, torn, q);
      case Cut(i, forward, keep) => CutKeepsHard(s, i, forward, keep, q);
      case _ => LocalKeepsHard(s, act, q);
    }
  }

  lemma StepKeepsGood(s: State, act: Action)
    requires Good(s) && Enabled(s, act) && !Resets(s, act)
    ensures Good(Step(s, act))
  {
    hide Inv, HardOk, Step, Enabled, Resets;
    StepKeepsInv(s, act);
    StepKeepsHard(s, act, A);
    StepKeepsHard(s, act, B);
  }

  lemma {:induction false} RunKeepsInv(s: State, acts: seq<Action>, t: State)
    requires Good(s) && Unreset(s, acts)
    ensures Run(s, acts, t) ==> Good(t)
    decreases |acts|
  {
    hide Inv, Step, Enabled, HardOk, Resets;
    if acts != [] && Run(s, acts, t) {
      StepKeepsGood(s, acts[0]);
      RunKeepsInv(Step(s, acts[0]), acts[1..], t);
    }
  }

  /** t is reached by some run of two endpoints that start from nothing, in which no session is reset. */
  ghost predicate Reachable(cfg: Config, t: State) {
    exists acts :: Unreset(Init(cfg), acts) && Run(Init(cfg), acts, t)
  }

  lemma ReachableInv(cfg: Config, t: State)
    requires Reachable(cfg, t)
    ensures Good(t)
  {
    hide Inv, Run, Unreset;
    var acts :| Unreset(Init(cfg), acts) && Run(Init(cfg), acts, t);
    InitInv(cfg);
    RunKeepsInv(Init(cfg), acts, t);
  }

  lemma ReachableSide(cfg: Config, t: State, p: Side)
    requires Reachable(cfg, t)
    ensures SenderOk(Ep(t, p)) && Owned(Ep(t, p)) && HandshakeOk(Ep(t, p), p, t.wires)
    ensures Fronts(Ep(t, p), Ep(t, Other(p)))
    ensures Attached(t, p) ==> Shape(t.wires[Ep(t, p).wire.value])
  {
    hide SenderOk, Owned, HandshakeOk, Shape, Link, PacketsOk, Fronts, Run, Reachable;
    ReachableInv(cfg, t);
    assert SideOk(t, p);
  }

  /**
   What q has dispatched is the front, of length q.inSeq, of the order in which p first wrote its
   messages: no gap, no duplicate, no reordering, whatever was cut and however often it was retried.
   */
  lemma DispatchedIsPrefix(cfg: Config, t: State, p: Side)
    requires Reachable(cfg, t)
    ensures Ep(t, Other(p)).inSeq <= |Ep(t, p).log|
    ensures Ep(t, Other(p)).dispatched == Ep(t, p).log[..Ep(t, Other(p)).inSeq]
  {
    hide SenderOk, Owned, HandshakeOk, Shape, Reachable;
    ReachableSide(cfg, t, p);
  }

  /** The sender window, and no sent message outside an open session or one whose socket is being swapped. */
  lemma WindowAlways(cfg: Config, t: State, p: Side)
    requires Reachable(cfg, t)
    ensures var e := Ep(t, p);
            && Window(e.outQ, e.sent, e.outSeq, e.log)
            && (e.sent != [] ==> e.phase.Open? || e.phase.Replacing?)
            && e.finished == e.log[..e.outSeq - |e.sent|]
            && !e.phase.Closed?
  {
    hide Window, Owned, HandshakeOk, Shape, Fronts, Reachable;
    ReachableSide(cfg, t, p);
  }

  lemma WindowIds(q: OutQ, sent: seq<Msg>, outSeq: nat, log: seq<nat>)
    requires Window(q, sent, outSeq, log)
    ensures Ids(sent) == multiset(log[outSeq - |sent|..outSeq])
    ensures multiset(log[outSeq..]) <= Queued(q)
  {
    hide Ids, Queued;
    var l := ListAt(q, HIGHEST);
    var r := Replays(outSeq, log);
    IdsOfNumbered(log, outSeq - |sent|, outSeq);
    IdsOfNumbered(log, outSeq, |log|);
    IdListMultiset(sent);
    IdListMultiset(l[..r]);
    ReplaysQueued(q, r);
    assert log[outSeq..|log|] == log[outSeq..];
  }

  lemma ThreeParts(log: seq<nat>, i: nat, j: nat)
    requires i <= j <= |log|
    ensures multiset(log) == multiset(log[..i]) + multiset(log[i..j]) + multiset(log[j..])
  {
    assert log == log[..i] + log[i..j] + log[j..];
  }

  lemma LoggedWereAccepted(e: Endpoint)
    requires Window(e.outQ, e.sent, e.outSeq, e.log) && Owned(e) && !e.phase.Closed?
    requires e.finished == e.log[..e.outSeq - |e.sent|]
    ensures forall id :: multiset(e.log)[id] <= multiset(e.accepted)[id]
  {
    WindowIds(e.outQ, e.sent, e.outSeq, e.log);
    assert |e.sent| <= e.outSeq <= |e.log|;
    ThreeParts(e.log, e.outSeq - |e.sent|, e.outSeq);
    CountParts(e);
  }

  lemma CountParts(e: Endpoint)
    requires Owned(e) && !e.phase.Closed? && |e.sent| <= e.outSeq <= |e.log|
    requires e.finished == e.log[..e.outSeq - |e.sent|]
    requires Ids(e.sent) == multiset(e.log[e.outSeq - |e.sent|..e.outSeq])
    requires multiset(e.log[e.outSeq..]) <= Queued(e.outQ)
    requires multiset(e.log) == multiset(e.log[..e.outSeq - |e.sent|])
                                + multiset(e.log[e.outSeq - |e.sent|..e.outSeq]) + multiset(e.log[e.outSeq..])
    ensures forall id :: multiset(e.log)[id] <= multiset(e.accepted)[id]
  {
    hide Queued, Ids;
    forall id ensures multiset(e.log)[id] <= multiset(e.accepted)[id] {
      assert multiset(e.log[e.outSeq..])[id] <= Queued(e.outQ)[id];
    }
  }

  lemma ReplaysQueued(q: OutQ, r: nat)
    requires r <= |ListAt(q, HIGHEST)|
    ensures Ids(ListAt(q, HIGHEST)[..r]) <= Queued(q)
  {
    hide Queued, Ids;
    var l := ListAt(q, HIGHEST);
    assert l[..r] + l[r..] == l;
    IdsConcat(l[..r], l[r..]);
    QueuedUpdate(q, HIGHEST, l);
  }

  /** The fronts in order: released by the sender, dispatched by the receiver, written by the sender. */
  lemma FrontsNest(e: Endpoint, f: Endpoint)
    requires Fronts(e, f) && |e.sent| <= e.outSeq <= |e.log| && e.finished == e.log[..e.outSeq - |e.sent|]
    ensures forall id :: multiset(e.finished)[id] <= multiset(f.dispatched)[id] <= multiset(e.log)[id]
  {
    var base := e.outSeq - |e.sent|;
    assert e.log == f.dispatched + e.log[f.inSeq..];
    assert f.dispatched == e.finished + e.log[base..f.inSeq];
  }

  /**
   Exactly once: a message sent once is dispatched at most once, and until the peer has dispatched
   it the sender still holds its one reference to it.
   */
  lemma ExactlyOnce(cfg: Config, t: State, p: Side, id: nat)
    requires Reachable(cfg, t) && multiset(Ep(t, p).accepted)[id] == 1
    ensures multiset(Ep(t, Other(p)).dispatched)[id] <= 1
    ensures id !in Ep(t, Other(p)).dispatched ==> Ep(t, p).refs[id] == 1
    ensures Queued(Ep(t, p).outQ)[id] + Ids(Ep(t, p).sent)[id] == Ep(t, p).refs[id]
  {
    hide Owned, HandshakeOk, Shape, Fronts, Reachable;
    ReachableSide(cfg, t, p);
    var e, f := Ep(t, p), Ep(t, Other(p));
    LoggedWereAccepted(e);
    FrontsNest(e, f);
    Held(e, f, id);
  }

  lemma Held(e: Endpoint, f: Endpoint, id: nat)
    requires Owned(e) && !e.phase.Closed? && multiset(e.accepted)[id] == 1
    requires forall x :: multiset(e.finished)[x] <= multiset(f.dispatched)[x] <= multiset(e.log)[x]
    requires forall x :: multiset(e.log)[x] <= multiset(e.accepted)[x]
    ensures multiset(f.dispatched)[id] <= 1
    ensures id !in f.dispatched ==> e.refs[id] == 1
    ensures Queued(e.outQ)[id] + Ids(e.sent)[id] == e.refs[id]
  {
    hide Queued, Ids;
  }

  /** A data packet is always the next one: the old-message and skipped-message branches are never taken. */
  lemma NoOldNoSkipped(cfg: Config, t: State, p: Side, id: nat, k: nat)
    requires Reachable(cfg, t) && Enabled(t, Receive(p))
    requires In(t.wires[Ep(t, p).wire.value], p).q[0] == Data(id, k)
    ensures k == Ep(t, p).inSeq + 1
  {
    hide SenderOk, Owned, Direction, Shape, HandshakeOk, Fits, DecisionAt, NextOutgoing, Reachable, Inv;
    ReachableInv(cfg, t);
    var e := Ep(t, p);
    InvAt(t, p, e.wire.value);
    ReceiveDataFits(e, Ep(t, Other(p)), p, e.wire.value, t.wires[e.wire.value], id, k);
  }

  /**
   Reading an acknowledgement of n releases exactly the written messages up to number n: they are now
   finished, their references are gone, and every later message stays where it was. An acknowledgement
   from the peer at the other end of the same socket never names a number that was not written.
   */
  lemma AckReleases(cfg: Config, t: State, p: Side, n: nat)
    requires Reachable(cfg, t) && Enabled(t, Receive(p))
    requires In(t.wires[Ep(t, p).wire.value], p).q[0] == Ack(n)
    ensures var e, e2 := Ep(t, p), Ep(Step(t, Receive(p)), p);
            var front := e.outSeq - |e.sent|;
            var upTo := if n <= front then front else if n >= e.outSeq then e.outSeq else n;
            && 0 <= front <= upTo <= e.outSeq <= |e.log|
            && e2.finished == e.log[..upTo] && e.finished == e.log[..front]
            && e2.sent == e.sent[upTo - front..] && Ids(e2.sent) == multiset(e.log[upTo..e.outSeq])
            && e2.refs == e.refs - multiset(e.log[front..upTo]) == Queued(e.outQ) + Ids(e2.sent)
            && e2.outQ == e.outQ && e2.outSeq == e.outSeq && e2.log == e.log && e2.accepted == e.accepted
            && (Ep(t, Other(p)).wire == e.wire ==> n <= e.outSeq)
  {
    hide Owned, SenderOk, Fronts, HandshakeOk, Shape, Step, Enabled, HandleAck, Reachable, Inv, HardOk, Queued, Ids;
    ReachableInv(cfg, t);
    ReachableSide(cfg, t, p);
    AckIsHandled(t, p, n);
    AckedEndpoint(Ep(t, p), n);
    AckNumberBound(t, p, n);
  }

  lemma AckIsHandled(s: State, p: Side, n: nat)
    requires Enabled(s, Receive(p)) && In(s.wires[Ep(s, p).wire.value], p).q[0] == Ack(n)
    ensures Ep(Step(s, Receive(p)), p) == HandleAck(Ep(s, p), n)
  {
    hide HandleAck, Exchange, DecisionAt, NextOutgoing;
  }

  lemma PieceOf(log: seq<nat>, from: nat, last: nat, i: nat, j: nat)
    requires from <= last <= |log| && i <= j <= last - from
    ensures var piece := Numbered(log, from, last)[i..j];
            Ids(piece) == multiset(log[from + i..from + j]) && IdList(piece) == log[from + i..from + j]
  {
    hide Ids;
    var piece := Numbered(log, from, last)[i..j];
    assert piece == Numbered(log, from + i, from + j);
    IdsOfNumbered(log, from + i, from + j);
    IdListMultiset(piece);
  }

  /** What an acknowledgement takes off `sent`, in terms of the first-write order. */
  lemma AckedPieces(q: OutQ, sent: seq<Msg>, outSeq: nat, log: seq<nat>, n: nat)
    requires Window(q, sent, outSeq, log)
    ensures var k := AckCount(sent, n);
            var front := outSeq - |sent|;
            && 0 <= front <= front + k <= outSeq <= |log|
            && front + k == (if n <= front then front else if n >= outSeq then outSeq else n)
            && Ids(sent[..k]) == multiset(log[front..front + k]) && IdList(sent[..k]) == log[front..front + k]
            && Ids(sent[k..]) == multiset(log[front + k..outSeq])
  {
    hide Ids, IdList, ListAt, NoEmptyList, AtMostHighest, Numbered, AckCount;
    var front := outSeq - |sent|;
    var k := AckCount(sent, n);
    AckKeepsWindow(q, sent, outSeq, log, n);
    PieceOf(log, front, outSeq, 0, k);
    PieceOf(log, front, outSeq, k, |sent|);
    assert sent[0..k] == sent[..k] && sent[k..|sent|] == sent[k..];
  }

  lemma OwnedRefs(e: Endpoint)
    requires Owned(e)
    ensures e.refs == Queued(e.outQ) + Ids(e.sent)
  {
    hide Queued, Ids;
  }

  lemma AckedEndpoint(e: Endpoint, n: nat)
    requires SenderOk(e) && Owned(e)
    ensures var e2 := HandleAck(e, n);
            var front := e.outSeq - |e.sent|;
            var upTo := AckedFront(e, n);
            && 0 <= front <= upTo <= e.outSeq <= |e.log|
            && e2.finished == e.log[..upTo] && e.finished == e.log[..front]
            && e2.sent == e.sent[upTo - front..] && Ids(e2.sent) == multiset(e.log[upTo..e.outSeq])
            && e2.refs == e.refs - multiset(e.log[front..upTo]) == Queued(e.outQ) + Ids(e2.sent)
            && e2.outQ == e.outQ && e2.outSeq == e.outSeq && e2.log == e.log && e2.accepted == e.accepted
  {
    hide Window, Owned, Queued, Ids, IdList, AckCount;
    var front := e.outSeq - |e.sent|;
    var k := AckCount(e.sent, n);
    AckedPieces(e.outQ, e.sent, e.outSeq, e.log, n);
    HandleAckKeepsOwned(e, n);
    OwnedRefs(HandleAck(e, n));
    assert e.log[..front] + e.log[front..front + k] == e.log[..front + k];
  }

  lemma AckNumberBound(s: State, p: Side, n: nat)
    requires Inv(s) && Enabled(s, Receive(p)) && In(s.wires[Ep(s, p).wire.value], p).q[0] == Ack(n)
    ensures Ep(s, Other(p)).wire == Ep(s, p).wire ==> n <= Ep(s, p).outSeq
  {
    hide SenderOk, Owned, Shape, PhaseOnWire, NumbersOnWire, Chain, DataCount, Acked;
    var e := Ep(s, p);
    InvAt(s, p, e.wire.value);
    var w := s.wires[e.wire.value];
    assert FromReceiver(In(w, p).q[0], Ep(s, Other(p)).inSeq);
  }

  /** The asserts on connect_seq: RETRY_SESSION raises it, and the final reply names its successor. */
  lemma ConnectSeqAsserts(cfg: Config, t: State, p: Side)
    requires Reachable(cfg, t)
    ensures Enabled(t, Receive(p)) ==>
              var pk := In(t.wires[Ep(t, p).wire.value], p).q[0];
              (pk.Reply? && pk.decision.RetrySession? ==> pk.decision.connectSeq > Ep(t, p).connectSeq)
    ensures Ep(t, p).phase.ConnectReady? ==> Ep(t, p).connectSeq + 1 == Ep(t, p).phase.connectSeq
  {
    hide SenderOk, Owned, Fronts, Shape, HandshakeOk, DecisionAt, NextOutgoing, Reachable;
    ReachableSide(cfg, t, p);
    ReplyNumbers(Ep(t, p), p, t.wires);
  }

  /**
   The acceptor's asserts, in any state of two sides with different addresses: who is told to wait has
   the higher address, and a message that passes all comparisons is newer in both numbers.
   */
  lemma AcceptorAssertsHold(s: State, i: nat, exact: bool)
    requires Enabled(s, Accept(i, exact)) && s.cfg.addrA != s.cfg.addrB
    ensures var q := Other(s.wires[i].connector);
            var e, c := Ep(s, q), s.wires[i].forward.q[0];
            var d := DecisionAt(s, q, exact, c);
            && (d.Wait? ==> if q.A? then s.cfg.addrB > s.cfg.addrA else s.cfg.addrA > s.cfg.addrB)
            && (!d.Open? && !d.RetryGlobal? && !e.phase.Absent?
                && !(c.connectSeq == 0 && e.connectSeq > 0) && !(c.connectSeq < e.connectSeq)
                && c.connectSeq != e.connectSeq ==>
                  c.connectSeq > e.connectSeq && c.globalSeq >= e.peerGlobalSeq)
  {
    hide DecideSession;
    var q := Other(s.wires[i].connector);
    var c := s.wires[i].forward.q[0];
    var existing := ExistingOf(Ep(s, q), Pol(s.cfg, q), exact);
    if existing.Some? {
      AcceptorAsserts(existing.value, AcceptorOf(s.cfg, q, false), Connect(c.connectSeq, c.globalSeq));
    }
  }

  lemma ReplyNumbers(e: Endpoint, p: Side, wires: seq<Wire>)
    requires HandshakeOk(e, p, wires)
    ensures e.phase.ConnectReady? ==> e.connectSeq + 1 == e.phase.connectSeq
    ensures e.phase.WaitReply? && e.wire.Some? && In(wires[e.wire.value], p).q != [] ==>
              NumbersAgree(e.connectSeq, In(wires[e.wire.value], p).q[0])
  {
    hide NumbersAgree;
    if e.phase.WaitReply? && e.wire.Some? && In(wires[e.wire.value], p).q != [] {
      assert In(wires[e.wire.value], p).q[0] in In(wires[e.wire.value], p).q;
    }
  }

  /** Whether a session in this phase reads from its socket. */
  predicate Reads(ph: Phase) {
    ph.WaitReply? || ph.WaitAckSeq? || ph.AcceptWaitConnect? || ph.AcceptWaitSeq? || ph.Open?
  }

  /** A session never finds a packet that its state cannot interpret. */
  lemma NoUnexpectedPacket(cfg: Config, t: State, p: Side)
    requires Reachable(cfg, t) && Attached(t, p) && Reads(Ep(t, p).phase)
    requires In(t.wires[Ep(t, p).wire.value], p).q != []
    ensures Enabled(t, Receive(p))
  {
    hide SenderOk, Owned, Fronts, Shape, HandshakeOk, DecisionAt, NextOutgoing, Reachable;
    var e := Ep(t, p);
    ReachableSide(cfg, t, p);
    HeadFits(e, p, t.wires);
  }

  lemma HeadFits(e: Endpoint, p: Side, wires: seq<Wire>)
    requires SenderOk(e) && HandshakeOk(e, p, wires) && Reads(e.phase)
    requires e.wire.Some? && e.wire.value < |wires| && Shape(wires[e.wire.value])
    requires In(wires[e.wire.value], p).q != []
    ensures CanReceive(e, In(wires[e.wire.value], p).q[0])
  {
    hide Window;
    var w := wires[e.wire.value];
    var pk := In(w, p).q[0];
    assert pk in In(w, p).q;
    if e.phase.WaitReply? {
      assert NumbersAgree(e.connectSeq, pk);
    }
  }

  /**
   No guard of the machine holds anything back: in every reachable state a session can be sent a message or
   break, any suffix of any channel can be lost, a client that is connecting can attempt, an open session
   with something to write or to acknowledge can do so, a swap can be finished, and a connect message that
   has arrived at a socket nobody adopted can be answered.
   */
  lemma NothingIsHeldBack(cfg: Config, t: State, p: Side)
    requires Reachable(cfg, t)
    ensures forall torn :: Enabled(t, Break(p, torn))
    ensures forall prio: nat, id | prio <= HIGHEST && !Ep(t, p).phase.Absent? :: Enabled(t, Send(p, prio, id))
    ensures forall i, forward, keep |
              0 <= i < |t.wires| && 0 <= keep <= |(if forward then t.wires[i].forward else t.wires[i].back).q| ::
              Enabled(t, Cut(i, forward, keep))
    ensures Ep(t, p).phase.Connecting? && !Pol(t.cfg, p).server ==> Enabled(t, Attempt(p))
    ensures Ep(t, p).phase.Open? && Ep(t, p).outQ != map[] ==> Enabled(t, Write(p))
    ensures Ep(t, p).phase.Open? && Ep(t, p).ackLeft > 0 ==> Enabled(t, SendAck(p))
    ensures Ep(t, p).phase.Replacing? ==> Enabled(t, FinishReplace(p))
    ensures forall i, exact |
              0 <= i < |t.wires| && !t.wires[i].adopted
              && t.wires[i].forward.q != [] && t.wires[i].forward.q[0].ConnectMsg? ::
              Enabled(t, Accept(i, exact))
  {
    hide Inv, HardOk, Reachable, DecisionAt, NextOutgoing, PhaseOnWire, Shape;
    ReachableInv(cfg, t);
    WhereFacts(t, p);
    SenderCan(t, p);
    forall i, exact |
      0 <= i < |t.wires| && !t.wires[i].adopted
      && t.wires[i].forward.q != [] && t.wires[i].forward.q[0].ConnectMsg?
      ensures Enabled(t, Accept(i, exact))
    {
      OpensOnlyFirst(t, Other(t.wires[i].connector), exact, t.wires[i].forward.q[0]);
    }
  }

  lemma SenderCan(s: State, p: Side)
    requires Inv(s)
    ensures |Ep(s, p).sent| <= Ep(s, p).outSeq
    ensures Ep(s, p).outQ != map[] ==> NextOutgoing(Ep(s, p).outQ).0.Some?
  {
    hide Owned, Direction, HandshakeOk, Shape, Numbered, ListAt;
    assert SideOk(s, p);
    if Ep(s, p).outQ != map[] {
      NextOutgoingOfWindow(Ep(s, p).outQ);
    }
  }

  lemma OpensOnlyFirst(s: State, q: Side, exact: bool, c: Packet)
    requires Inv(s) && c.ConnectMsg?
    ensures DecisionAt(s, q, exact, c).Open? ==> Ep(s, q).phase.Absent?
  {
    hide Owned, Direction, HandshakeOk, Shape, Window;
    assert SideOk(s, q);
  }
}
