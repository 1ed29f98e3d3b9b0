/**
 Progress of an open session: as long as the socket works, writing and reading alone bring every accepted
 message to the other side, and with acknowledgements the sender lets go of all of them.
 */
module SessionDrain {
  import opened Wrappers
  import opened SendQueue
  import opened Endpoints
  import opened Session
  import opened SessionSafety
  import opened SessionSteps
  import opened SessionTheorems

  /** Both sides are open on the same socket, and it still carries what p writes. */
  predicate Linked(s: State, p: Side) {
    && Ep(s, p).phase.Open? && Ep(s, Other(p)).phase.Open? && Ep(s, p).wire == Ep(s, Other(p)).wire
    && Attached(s, p) && Out(s.wires[Ep(s, p).wire.value], p).alive
  }

  function Underway(s: State, p: Side): seq<Packet>
    requires Linked(s, p)
  {
    Out(s.wires[Ep(s, p).wire.value], p).q
  }

  /** What the steps of one direction leave alone: the other direction's messages, and its socket. */
  predicate OtherWay(s: State, t: State, p: Side) {
    && Ep(t, p).dispatched == Ep(s, p).dispatched
    && Ep(t, Other(p)).accepted == Ep(s, Other(p)).accepted && Ep(t, Other(p)).log == Ep(s, Other(p)).log
    && (Linked(s, Other(p)) ==> Linked(t, Other(p)))
    && (AllDone(s, Other(p)) ==> AllDone(t, Other(p)))
  }

  /** Everything p ever wrote was dispatched, acknowledged and released, and nothing is waiting. */
  predicate AllDone(s: State, p: Side) {
    var e, f := Ep(s, p), Ep(s, Other(p));
    && e.outQ == map[] && e.sent == [] && e.refs == multiset{} && e.finished == e.log
    && f.dispatched == e.log && f.ackLeft == 0
  }

  lemma OnlyTraffic(s: State, p: Side)
    requires Inv(s) && Linked(s, p)
    ensures Underway(s, p) != [] ==> Enabled(s, Receive(Other(p)))
  {
    hide SenderOk, Owned, Direction, NumbersOnWire;
    assert SideOk(s, p) && SideOk(s, Other(p));
    var w := s.wires[Ep(s, p).wire.value];
    assert Shape(w) && w.stage == 3;
    if Underway(s, p) != [] {
      assert Out(w, p).q[0] in Out(w, p).q;
    }
  }

  /** An endpoint that has nothing unacknowledged is not changed by an acknowledgement. */
  lemma NothingToAck(e: Endpoint, n: nat)
    ensures e.sent == [] ==> HandleAck(e, n) == e
  {
    assert IdList([]) == [] && Ids([]) == multiset{};
    assert e.finished + [] == e.finished;
  }

  /** What reading data or an acknowledgement leaves alone in the reader. */
  lemma ReaderKeeps(f: Endpoint, pk: Packet)
    requires CanReceive(f, pk) && f.phase.Open?
    ensures var f2 := Received(f, pk);
            && f2.phase.Open? && f2.wire == f.wire && f2.accepted == f.accepted && f2.log == f.log
            && f2.outQ == f.outQ
            && (f.sent == [] ==> f2.sent == [] && f2.refs == f.refs && f2.finished == f.finished)
  {
    hide AckCount, Ids, IdList, DiscardRequeuedUpTo, OpenSession, AfterReply;
    if pk.Ack? {
      NothingToAck(f, pk.n);
    }
  }

  /** The other side takes a packet. */
  lemma TakesOne(s: State, p: Side)
    requires Inv(s) && Linked(s, p) && Underway(s, p) != []
    ensures Enabled(s, Receive(Other(p)))
    ensures var t := Step(s, Receive(Other(p)));
            && Inv(t) && Linked(t, p) && Underway(t, p) == Underway(s, p)[1..] && Ep(t, p) == Ep(s, p)
            && OtherWay(s, t, p)
  {
    hide Inv, DecisionAt, NextOutgoing, Received, CanReceive;
    OnlyTraffic(s, p);
    ReceiveTrafficKeepsInv(s, Other(p));
    IsTrafficHead(s, p);
    ReaderKeeps(Ep(s, Other(p)), Underway(s, p)[0]);
  }

  lemma IsTrafficHead(s: State, p: Side)
    requires Linked(s, p) && Underway(s, p) != [] && Enabled(s, Receive(Other(p)))
    ensures CanReceive(Ep(s, Other(p)), Underway(s, p)[0])
    ensures Underway(s, p)[0].Data? || Underway(s, p)[0].Ack?
  {
  }

  lemma WritesOne(s: State, p: Side)
    requires Inv(s) && Linked(s, p) && NextOutgoing(Ep(s, p).outQ).0.Some?
    ensures Enabled(s, Write(p))
    ensures var t := Step(s, Write(p));
            && Inv(t) && Linked(t, p) && Ep(t, p).accepted == Ep(s, p).accepted
            && |Queued(Ep(t, p).outQ)| < |Queued(Ep(s, p).outQ)| && OtherWay(s, t, p)
  {
    hide Inv, DecisionAt, NextOutgoing, Queued;
    NextOutgoingConserves(Ep(s, p).outQ);
    WriteKeepsInv(s, p);
  }

  /** An endpoint with an empty queue has written everything it accepted, once for each acceptance. */
  lemma AllWritten(e: Endpoint)
    requires SenderOk(e) && Owned(e) && NextOutgoing(e.outQ).0.None?
    ensures multiset(e.log) == multiset(e.accepted)
  {
    hide Queued, Ids;
    EmptyQueue(e);
    WindowIds(e.outQ, e.sent, e.outSeq, e.log);
    hide Window;
    var base := e.outSeq - |e.sent|;
    assert e.log == e.log[..base] + e.log[base..e.outSeq];
  }

  lemma LinkFacts(s: State, p: Side)
    requires Inv(s) && Linked(s, p)
    ensures SenderOk(Ep(s, p)) && Owned(Ep(s, p)) && Fronts(Ep(s, p), Ep(s, Other(p)))
    ensures Ep(s, Other(p)).inSeq + DataCount(Underway(s, p)) == Ep(s, p).outSeq
  {
    hide HandshakeOk, Shape, PacketsOk, SenderOk, Owned, Fronts, Chain;
    assert SideOk(s, p);
  }

  /** Nothing queued and nothing under way: all that was ever accepted has been dispatched. */
  lemma NothingLeft(s: State, p: Side)
    requires Inv(s) && Linked(s, p) && Underway(s, p) == [] && NextOutgoing(Ep(s, p).outQ).0.None?
    ensures Ep(s, Other(p)).dispatched == Ep(s, p).log
    ensures multiset(Ep(s, p).log) == multiset(Ep(s, p).accepted) && Ep(s, p).outQ == map[]
  {
    hide Inv, SenderOk, Owned, NextOutgoing;
    var e, f := Ep(s, p), Ep(s, Other(p));
    LinkFacts(s, p);
    EmptyQueue(e);
    AllWritten(e);
    assert e.log[..f.inSeq] == e.log;
  }

  lemma EmptyQueue(e: Endpoint)
    requires SenderOk(e) && NextOutgoing(e.outQ).0.None?
    ensures e.outQ == map[] && Queued(e.outQ) == multiset{} && e.outSeq == |e.log|
  {
    if e.outQ != map[] {
      NextOutgoingOfWindow(e.outQ);
    }
  }

  /** A run that takes one step more at its front. */
  lemma RunStep(s: State, a: Action, rest: seq<Action>, t: State)
    requires Enabled(s, a) && !Resets(s, a) && Run(Step(s, a), rest, t) && Unreset(Step(s, a), rest)
    ensures Run(s, [a] + rest, t) && Unreset(s, [a] + rest)
  {
    hide Enabled, Step, Resets;
    assert ([a] + rest)[1..] == rest;
  }

  /**
   From every state in which both sides are open on a working socket some continuation, of writes and
   reads only, dispatches every accepted message, in the order of the first writes and as often as it was
   accepted.
   */
  lemma {:induction false} OpenSessionDrains(s: State, p: Side) returns (acts: seq<Action>, t: State)
    requires Inv(s) && Linked(s, p)
    ensures Run(s, acts, t) && Unreset(s, acts) && Inv(t)
    ensures forall a | a in acts :: a == Write(p) || a == Receive(Other(p))
    ensures Ep(t, p).accepted == Ep(s, p).accepted && Ep(t, Other(p)).dispatched == Ep(t, p).log
    ensures multiset(Ep(t, Other(p)).dispatched) == multiset(Ep(s, p).accepted) && OtherWay(s, t, p)
    ensures Linked(t, p) && Underway(t, p) == [] && Ep(t, p).outQ == map[]
    decreases |Queued(Ep(s, p).outQ)|, |Underway(s, p)|
  {
    hide Inv, Enabled, Step, NextOutgoing, Queued;
    if Underway(s, p) != [] {
      TakesOne(s, p);
      acts, t := OpenSessionDrains(Step(s, Receive(Other(p))), p);
      RunStep(s, Receive(Other(p)), acts, t);
      acts := [Receive(Other(p))] + acts;
    } else if NextOutgoing(Ep(s, p).outQ).0.Some? {
      WritesOne(s, p);
      acts, t := OpenSessionDrains(Step(s, Write(p)), p);
      RunStep(s, Write(p), acts, t);
      acts := [Write(p)] + acts;
    } else {
      acts, t := [], s;
      NothingLeft(s, p);
    }
  }

  // ---------------------------------------------------------------- the acknowledgements

  /** p has handed over everything; the other side still has to be told, or to be heard. */
  predicate HandedOver(s: State, p: Side) {
    && Linked(s, p) && Linked(s, Other(p)) && Underway(s, p) == [] && Ep(s, p).outQ == map[]
    && Ep(s, Other(p)).dispatched == Ep(s, p).log
  }

  /** What the way back leaves alone. */
  predicate OnTheWayBack(s: State, t: State, p: Side) {
    && Ep(t, p).accepted == Ep(s, p).accepted && Ep(t, p).log == Ep(s, p).log
    && Ep(t, Other(p)).accepted == Ep(s, Other(p)).accepted
    && (AllDone(s, Other(p)) ==> AllDone(t, Other(p)))
  }

  /** p reads what the other side has written: acknowledgements, and its messages. */
  lemma HearsOne(s: State, p: Side)
    requires Inv(s) && HandedOver(s, p) && Underway(s, Other(p)) != []
    ensures Enabled(s, Receive(p))
    ensures var t := Step(s, Receive(p));
            && Inv(t) && HandedOver(t, p) && OnTheWayBack(s, t, p)
            && Underway(t, Other(p)) == Underway(s, Other(p))[1..]
            && Ep(t, Other(p)).ackLeft == Ep(s, Other(p)).ackLeft
  {
    hide Inv, DecisionAt, NextOutgoing, AckCount, Ids, IdList, DataCount;
    TakesOne(s, Other(p));
    NoDataLeft(s, Other(p));
    var pk := Underway(s, Other(p))[0];
    if pk.Ack? {
      NothingToAck(Ep(s, p), pk.n);
    }
  }

  /** Once all of p's messages are dispatched none is on its way. */
  lemma NoDataLeft(s: State, p: Side)
    requires Inv(s) && Linked(s, p) && Underway(s, p) != []
    ensures AllDone(s, p) ==> !Underway(s, p)[0].Data?
  {
    hide Inv, SenderOk, Owned;
    LinkFacts(s, p);
    if AllDone(s, p) {
      WindowEnd(Ep(s, p));
      assert |Ep(s, p).log[..Ep(s, Other(p)).inSeq]| == |Ep(s, p).log|;
    }
  }

  lemma WindowEnd(e: Endpoint)
    requires SenderOk(e)
    ensures e.outSeq <= |e.log|
  {
    hide Numbered, ListAt, NoEmptyList, AtMostHighest;
  }

  lemma TellsOne(s: State, p: Side)
    requires Inv(s) && HandedOver(s, p) && Underway(s, Other(p)) == [] && Ep(s, Other(p)).ackLeft > 0
    ensures Enabled(s, SendAck(Other(p)))
    ensures var t := Step(s, SendAck(Other(p)));
            && Inv(t) && HandedOver(t, p) && OnTheWayBack(s, t, p) && Ep(t, Other(p)).ackLeft == 0
  {
    hide Inv, DecisionAt, NextOutgoing;
    SendAckKeepsInv(s, Other(p));
  }

  /** Nothing is owed and nothing is under way: everything is acknowledged. */
  lemma AllAcknowledged(s: State, p: Side)
    requires Inv(s) && HandedOver(s, p) && Underway(s, Other(p)) == [] && Ep(s, Other(p)).ackLeft == 0
    ensures AllDone(s, p)
  {
    hide Inv, SenderOk, Owned;
    LinkFacts(s, p);
    FrontReached(s, p);
    Released(Ep(s, p));
  }

  lemma FrontReached(s: State, p: Side)
    requires Inv(s) && HandedOver(s, p) && Underway(s, Other(p)) == [] && Ep(s, Other(p)).ackLeft == 0
    ensures Ep(s, p).outSeq - |Ep(s, p).sent| == Ep(s, Other(p)).inSeq == Ep(s, p).outSeq
  {
    hide HandshakeOk, Shape, PacketsOk, SenderOk, Owned, Fronts, Chain;
    assert SideOk(s, p);
  }

  lemma Released(e: Endpoint)
    requires SenderOk(e) && Owned(e) && e.outQ == map[] && e.sent == []
    ensures e.refs == multiset{} && e.finished == e.log
  {
    assert e.outSeq == |e.log|;
    assert Queued(map[]) == multiset{} && Ids([]) == multiset{};
  }

  lemma {:induction false} AcknowledgementsArrive(s: State, p: Side) returns (acts: seq<Action>, t: State)
    requires Inv(s) && HandedOver(s, p)
    ensures Run(s, acts, t) && Unreset(s, acts) && Inv(t)
    ensures forall a | a in acts :: a == Receive(p) || a == SendAck(Other(p))
    ensures HandedOver(t, p) && AllDone(t, p) && OnTheWayBack(s, t, p)
    decreases Ep(s, Other(p)).ackLeft, |Underway(s, Other(p))|
  {
    hide Inv, Enabled, Step, HandedOver, AllDone;
    LinkedBothWays(s, p);
    if Underway(s, Other(p)) != [] {
      HearsOne(s, p);
      acts, t := AcknowledgementsArrive(Step(s, Receive(p)), p);
      RunStep(s, Receive(p), acts, t);
      acts := [Receive(p)] + acts;
    } else if Ep(s, Other(p)).ackLeft > 0 {
      TellsOne(s, p);
      acts, t := AcknowledgementsArrive(Step(s, SendAck(Other(p))), p);
      RunStep(s, SendAck(Other(p)), acts, t);
      acts := [SendAck(Other(p))] + acts;
    } else {
      acts, t := [], s;
      AllAcknowledged(s, p);
    }
  }

  lemma LinkedBothWays(s: State, p: Side)
    requires HandedOver(s, p)
    ensures Linked(s, p) && Linked(s, Other(p))
  {
  }

  /**
   From every state in which both sides are open on a working socket some continuation, of writes, reads
   and acknowledgements, dispatches every accepted message and then releases it: nothing is queued or
   sent, no reference is held, and everything written is finished.
   */
  lemma OpenSessionSettles(s: State, p: Side) returns (acts: seq<Action>, t: State)
    requires Inv(s) && Linked(s, p) && Linked(s, Other(p))
    ensures Run(s, acts, t) && Unreset(s, acts) && Inv(t)
    ensures HandedOver(t, p) && AllDone(t, p)
    ensures Ep(t, p).accepted == Ep(s, p).accepted && Ep(t, Other(p)).accepted == Ep(s, Other(p)).accepted
    ensures multiset(Ep(t, p).log) == multiset(Ep(s, p).accepted)
    ensures AllDone(s, Other(p)) ==> AllDone(t, Other(p))
  {
    hide Inv, Run, Unreset;
    var first, u := OpenSessionDrains(s, p);
    var second;
    second, t := AcknowledgementsArrive(u, p);
    Joined(s, first, u, second, t);
    acts := first + second;
  }

  lemma {:induction false} Joined(s: State, first: seq<Action>, t: State, second: seq<Action>, u: State)
    requires Run(s, first, t) && Unreset(s, first) && Run(t, second, u) && Unreset(t, second)
    ensures Run(s, first + second, u) && Unreset(s, first + second)
    decreases |first|
  {
    hide Enabled, Step, Resets;
    if first == [] {
      assert first + second == second;
    } else {
      Joined(Step(s, first[0]), first[1..], t, second, u);
      assert (first + second)[1..] == first[1..] + second;
    }
  }
}
