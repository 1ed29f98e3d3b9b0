/**
 Messages of one priority leave in the order in which they were sent. The log of first writes holds them in
 that order, whatever was cut, requeued or replayed in between, and so does what the peer dispatches.
 */
module SessionFifo {
  import opened Wrappers
  import opened SendQueue
  import opened Endpoints
  import opened N = Negotiation
  import opened Session
  import opened SessionSafety
  import opened SessionSteps
  import opened SessionReady
  import opened SessionTheorems

  /** A message and the priority it was sent with. */
  datatype Item = Item(prio: nat, id: nat)

  function Names(l: seq<Item>): seq<nat> {
    seq(|l|, i requires 0 <= i < |l| => l[i].id)
  }

  /** The messages of one priority, in order. */
  function At(l: seq<Item>, prio: nat): seq<nat> {
    if l == [] then []
    else At(l[..|l| - 1], prio) + if l[|l| - 1].prio == prio then [l[|l| - 1].id] else []
  }

  /** The messages of a list that were never written. */
  function Unwritten(l: seq<Msg>): seq<nat> {
    if l == [] then [] else (if l[0].seqNo == 0 then [l[0].id] else []) + Unwritten(l[1..])
  }

  /** What one action sends from p's application. */
  function Sent1(a: Action, p: Side): seq<Item> {
    if a.Send? && a.p == p then [Item(a.prio, a.id)] else []
  }

  /** What one action of p writes for the first time, with the list it was taken from. */
  ghost function Written1(s: State, a: Action, p: Side): seq<Item>
    requires Enabled(s, a)
  {
    if a == Write(p) && NextOutgoing(Ep(s, p).outQ).0.value.seqNo == 0 && Ep(s, p).outQ != map[]
    then [Item(TopPriority(Ep(s, p).outQ), NextOutgoing(Ep(s, p).outQ).0.value.id)]
    else []
  }

  function SentBy(acts: seq<Action>, p: Side): seq<Item> {
    if acts == [] then [] else Sent1(acts[0], p) + SentBy(acts[1..], p)
  }

  ghost function WrittenBy(s: State, acts: seq<Action>, p: Side): seq<Item>
    requires Unreset(s, acts)
    decreases |acts|
  {
    if acts == [] then []
    else Written1(s, acts[0], p) + WrittenBy(Step(s, acts[0]), acts[1..], p)
  }

  /** For each priority: what was sent is what was written, and then what waits in its list, in order. */
  ghost predicate Fifo(e: Endpoint, sent: seq<Item>, written: seq<Item>) {
    && Names(sent) == e.accepted && Names(written) == e.log
    && (forall x | x in written :: x.prio <= HIGHEST)
    && forall prio: nat | prio <= HIGHEST :: At(sent, prio) == At(written, prio) + Unwritten(ListAt(e.outQ, prio))
  }

  // ---------------------------------------------------------------- lists

  lemma AtSnoc(l: seq<Item>, x: Item, prio: nat)
    ensures At(l + [x], prio) == At(l, prio) + (if x.prio == prio then [x.id] else [])
  {
    assert (l + [x])[..|l|] == l;
  }

  lemma {:induction false} UnwrittenConcat(a: seq<Msg>, b: seq<Msg>)
    ensures Unwritten(a + b) == Unwritten(a) + Unwritten(b)
  {
    if a == [] {
      assert a + b == b;
    } else {
      assert (a + b)[1..] == a[1..] + b;
      UnwrittenConcat(a[1..], b);
    }
  }

  lemma {:induction false} NumberedIsWritten(l: seq<Msg>)
    requires forall i | 0 <= i < |l| :: l[i].seqNo > 0
    ensures Unwritten(l) == []
  {
    if l != [] {
      NumberedIsWritten(l[1..]);
    }
  }

  lemma {:induction false} DiscardTakesWritten(l: seq<Msg>, acked: nat)
    ensures Unwritten(l[DiscardCount(l, acked)..]) == Unwritten(l)
  {
    var n := DiscardCount(l, acked);
    if n > 0 {
      DiscardTakesWritten(l[1..], acked);
      assert l[n..] == l[1..][n - 1..];
    } else {
      assert l[0..] == l;
    }
  }

  // ---------------------------------------------------------------- what each operation does to the order

  lemma SendKeepsFifo(e: Endpoint, sent: seq<Item>, written: seq<Item>, prio: nat, id: nat)
    requires Fifo(e, sent, written) && !e.phase.Closed?
    ensures Fifo(SendMessage(e, prio, id), sent + [Item(prio, id)], written)
  {
    var e2 := SendMessage(e, prio, id);
    forall k: nat | k <= HIGHEST
      ensures At(sent + [Item(prio, id)], k) == At(written, k) + Unwritten(ListAt(e2.outQ, k))
    {
      AtSnoc(sent, Item(prio, id), k);
      UnwrittenConcat(ListAt(e.outQ, prio), [Msg(id, 0)]);
      assert Unwritten([Msg(id, 0)]) == [id] + Unwritten([Msg(id, 0)][1..]);
    }
  }

  /** The message written is the front of its list. */
  lemma WriteKeepsFifo(e: Endpoint, sent: seq<Item>, written: seq<Item>)
    requires Fifo(e, sent, written) && NoEmptyList(e.outQ) && AtMostHighest(e.outQ) && e.outQ != map[]
    ensures var m := NextOutgoing(e.outQ).0.value;
            Fifo(WriteOne(e), sent, written + if m.seqNo == 0 then [Item(TopPriority(e.outQ), m.id)] else [])
  {
    var top := TopPriority(e.outQ);
    var m := e.outQ[top][0];
    NextOutgoingOfWindow(e.outQ);
    var e2 := WriteOne(e);
    var more := if m.seqNo == 0 then [Item(top, m.id)] else [];
    assert written + [] == written;
    forall k: nat | k <= HIGHEST
      ensures At(sent, k) == At(written + more, k) + Unwritten(ListAt(e2.outQ, k))
    {
      AtSnoc(written, Item(top, m.id), k);
      if k == top {
        assert ListAt(e2.outQ, top) == e.outQ[top][1..];
      } else {
        assert ListAt(e2.outQ, k) == ListAt(e.outQ, k);
      }
    }
  }

  lemma RequeueKeepsFifo(e: Endpoint, sent: seq<Item>, written: seq<Item>)
    requires Fifo(e, sent, written) && |e.sent| <= e.outSeq
    requires forall i | 0 <= i < |e.sent| :: e.sent[i].seqNo > 0
    ensures Fifo(RequeueSent(e), sent, written)
  {
    NumberedIsWritten(e.sent);
    UnwrittenConcat(e.sent, ListAt(e.outQ, HIGHEST));
  }

  lemma DiscardKeepsFifo(e: Endpoint, sent: seq<Item>, written: seq<Item>, acked: nat)
    requires Fifo(e, sent, written)
    ensures Fifo(DiscardRequeuedUpTo(e, acked), sent, written)
  {
    DiscardTakesWritten(ListAt(e.outQ, HIGHEST), acked);
    hide DiscardCount, Unwritten, At, Ids;
  }

  /** What the order depends on did not change. */
  predicate SameOrder(e: Endpoint, e2: Endpoint) {
    e2.outQ == e.outQ && e2.log == e.log && e2.accepted == e.accepted
  }

  lemma SameOrderKeepsFifo(e: Endpoint, e2: Endpoint, sent: seq<Item>, written: seq<Item>)
    requires Fifo(e, sent, written) && SameOrder(e, e2)
    ensures Fifo(e2, sent, written)
  {
  }

  // ---------------------------------------------------------------- one step

  /** The sender invariant gives each operation what it needs. */
  lemma SenderFacts(e: Endpoint)
    requires SenderOk(e)
    ensures |e.sent| <= e.outSeq && NoEmptyList(e.outQ) && AtMostHighest(e.outQ) && !e.phase.Closed?
    ensures forall i | 0 <= i < |e.sent| :: e.sent[i].seqNo > 0
  {
    assert forall i | 0 <= i < |e.sent| :: e.sent[i] == Numbered(e.log, e.outSeq - |e.sent|, e.outSeq)[i];
  }

  lemma FaultKeepsFifo(e: Endpoint, pol: Policy, torn: bool, sent: seq<Item>, written: seq<Item>)
    requires SenderOk(e) && |e.sent| <= e.outSeq && Fifo(e, sent, written)
    ensures Fifo(Fault(e, pol, torn), sent, written)
  {
    hide SenderOk, Fifo, FaultPhase, FaultBumps, Requeue;
    SenderFacts(e);
    RequeueKeepsFifo(e, sent, written);
    if !(e.phase.Absent? || e.phase.Closed? || e.phase.Replacing?) {
      SameOrderKeepsFifo(RequeueSent(e), Fault(e, pol, torn), sent, written);
    }
  }

  lemma OpenSessionKeepsFifo(e: Endpoint, c: nat, g: nat, sent: seq<Item>, written: seq<Item>)
    requires Fifo(e, sent, written)
    ensures Fifo(OpenSession(e, c, g), sent, written)
  {
    hide Fifo, DiscardRequeuedUpTo;
    DiscardKeepsFifo(e, sent, written, 0);
    var e1 := if e.hardReset then DiscardRequeuedUpTo(e, 0) else e;
    SameOrderKeepsFifo(e1, OpenSession(e, c, g), sent, written);
  }

  lemma ReceivedKeepsFifo(e: Endpoint, pk: Packet, sent: seq<Item>, written: seq<Item>)
    requires Fifo(e, sent, written) && CanReceive(e, pk)
    requires !(pk.Reply? && pk.decision.ResetSession?)
    ensures Fifo(Received(e, pk), sent, written)
  {
    hide Fifo, DiscardRequeuedUpTo, OpenSession, WasReset;
    match pk {
      case ConnectMsg(c, g) => OpenSessionKeepsFifo(e, c, g, sent, written);
      case InSeq(n) =>
        DiscardKeepsFifo(e, sent, written, n);
        SameOrderKeepsFifo(DiscardRequeuedUpTo(e, n), Received(e, pk), sent, written);
      case _ => SameOrderKeepsFifo(e, Received(e, pk), sent, written);
    }
  }

  lemma ReceiveKeepsFifo(s: State, p: Side, sent: seq<Item>, written: seq<Item>)
    requires Inv(s) && Enabled(s, Receive(p)) && Fifo(Ep(s, p), sent, written)
    ensures Fifo(Ep(Step(s, Receive(p)), p), sent, written)
  {
    hide Inv, Fifo, Received, Exchange, Response, StageAfter, DecisionAt, NextOutgoing;
    var pk := In(s.wires[Ep(s, p).wire.value], p).q[0];
    NoResetOnItsWay(s, p);
    ReceivedKeepsFifo(Ep(s, p), pk, sent, written);
  }

  lemma AcceptKeepsFifo(s: State, i: nat, exact: bool, p: Side, sent: seq<Item>, written: seq<Item>)
    requires Enabled(s, Accept(i, exact)) && !Resets(s, Accept(i, exact)) && Fifo(Ep(s, p), sent, written)
    ensures Fifo(Ep(Step(s, Accept(i, exact)), p), sent, written)
  {
    hide Fifo, Exchange, DecisionAt, NextOutgoing, OpenSession, OpenReply, OpenStage, WasReset;
    var c := s.wires[i].forward.q[0];
    var e2 := Ep(Step(s, Accept(i, exact)), p);
    OpenSessionKeepsFifo(Ep(s, p), c.connectSeq, c.globalSeq, sent, written);
    if p == Other(s.wires[i].connector) && DecisionAt(s, p, exact, c).Open? {
      SameOrderKeepsFifo(OpenSession(Ep(s, p), c.connectSeq, c.globalSeq), e2, sent, written);
    } else {
      SameOrderKeepsFifo(Ep(s, p), e2, sent, written);
    }
  }

  lemma WriteStepKeepsFifo(s: State, p: Side, sent: seq<Item>, written: seq<Item>)
    requires Inv(s) && Enabled(s, Write(p)) && Fifo(Ep(s, p), sent, written)
    ensures Fifo(Ep(Step(s, Write(p)), p), sent, written + Written1(s, Write(p), p))
  {
    hide SenderOk, Owned, Direction, Shape, HandshakeOk, Fifo, WriteOne, NextOutgoing, DecisionAt, PushOn;
    var e := Ep(s, p);
    assert SideOk(s, p);
    SenderFacts(e);
    SomethingQueued(e.outQ);
    WriteKeepsFifo(e, sent, written);
  }

  lemma FinishReplaceKeepsFifo(s: State, p: Side, sent: seq<Item>, written: seq<Item>)
    requires Inv(s) && Enabled(s, FinishReplace(p)) && Fifo(Ep(s, p), sent, written)
    ensures Fifo(Ep(Step(s, FinishReplace(p)), p), sent, written)
  {
    hide SenderOk, Owned, Direction, Shape, HandshakeOk, Fifo, Requeue, DecisionAt, NextOutgoing, PushOn;
    var e := Ep(s, p);
    assert SideOk(s, p);
    SenderFacts(e);
    RequeueKeepsFifo(e, sent, written);
    SameOrderKeepsFifo(RequeueSent(e), RequeueSent(e).(phase := AcceptWaitConnect), sent, written);
  }

  /** The steps that touch neither queue nor log of p. */
  lemma OtherStepsKeepOrder(s: State, a: Action, p: Side)
    requires Enabled(s, a) && !a.Accept?
    requires a.Start? || a.Wake? || a.Attempt? || a.Ready? || a.SendAck? || a.Cut? || a.p != p
    ensures SameOrder(Ep(s, p), Ep(Step(s, a), p))
  {
    hide Received, WriteOne, SendMessage, Fault, RequeueSent, Exchange, DecisionAt, NextOutgoing, Response, StageAfter;
  }

  lemma StepKeepsFifo(s: State, a: Action, p: Side, sent: seq<Item>, written: seq<Item>)
    requires Inv(s) && Enabled(s, a) && !Resets(s, a) && Fifo(Ep(s, p), sent, written)
    ensures Fifo(Ep(Step(s, a), p), sent + Sent1(a, p), written + Written1(s, a, p))
  {
    hide Inv, Fifo, Step, Enabled, Resets, SameOrder, NextOutgoing, TopPriority;
    assert sent + [] == sent && written + [] == written;
    if a.Accept? {
      AcceptKeepsFifo(s, a.w, a.exact, p, sent, written);
    } else if a.Start? || a.Wake? || a.Attempt? || a.Ready? || a.SendAck? || a.Cut? || a.p != p {
      OtherStepsKeepOrder(s, a, p);
      SameOrderKeepsFifo(Ep(s, p), Ep(Step(s, a), p), sent, written);
    } else {
      OwnStepKeepsFifo(s, a, p, sent, written);
    }
  }

  lemma OwnStepKeepsFifo(s: State, a: Action, p: Side, sent: seq<Item>, written: seq<Item>)
    requires Inv(s) && Enabled(s, a) && Fifo(Ep(s, p), sent, written)
    requires a.Send? || a.Write? || a.FinishReplace? || a.Break? || a.Receive?
    requires a.p == p
    ensures Fifo(Ep(Step(s, a), p), sent + Sent1(a, p), written + Written1(s, a, p))
  {
    hide Inv, Fifo, Step, Enabled, NextOutgoing, TopPriority;
    assert sent + [] == sent && written + [] == written;
    match a {
      case Send(_, prio, id) => SendStepKeepsFifo(s, p, prio, id, sent, written);
      case Write(_) => WriteStepKeepsFifo(s, p, sent, written);
      case FinishReplace(_) => FinishReplaceKeepsFifo(s, p, sent, written);
      case Break(_, torn) => BreakKeepsFifo(s, p, torn, sent, written);
      case Receive(_) => ReceiveKeepsFifo(s, p, sent, written);
    }
  }

  lemma SendStepKeepsFifo(s: State, p: Side, prio: nat, id: nat, sent: seq<Item>, written: seq<Item>)
    requires Inv(s) && Enabled(s, Send(p, prio, id)) && Fifo(Ep(s, p), sent, written)
    ensures Fifo(Ep(Step(s, Send(p, prio, id)), p), sent + [Item(prio, id)], written)
  {
    hide SenderOk, Owned, Direction, Shape, HandshakeOk, Fifo, SendMessage, DecisionAt, NextOutgoing;
    assert SideOk(s, p);
    SenderFacts(Ep(s, p));
    SendKeepsFifo(Ep(s, p), sent, written, prio, id);
  }

  lemma BreakKeepsFifo(s: State, p: Side, torn: bool, sent: seq<Item>, written: seq<Item>)
    requires Inv(s) && Enabled(s, Break(p, torn)) && Fifo(Ep(s, p), sent, written)
    ensures Fifo(Ep(Step(s, Break(p, torn)), p), sent, written)
  {
    hide SenderOk, Owned, Direction, Shape, HandshakeOk, Fifo, Fault, DecisionAt, NextOutgoing;
    assert SideOk(s, p);
    FaultKeepsFifo(Ep(s, p), Pol(s.cfg, p), torn, sent, written);
  }

  // ---------------------------------------------------------------- whole runs

  lemma {:induction false} RunKeepsFifo(
    s: State, acts: seq<Action>, t: State, p: Side, sent: seq<Item>, written: seq<Item>)
    requires Good(s) && Unreset(s, acts) && Run(s, acts, t) && Fifo(Ep(s, p), sent, written)
    ensures Fifo(Ep(t, p), sent + SentBy(acts, p), written + WrittenBy(s, acts, p))
    decreases |acts|
  {
    hide Inv, HardOk, Fifo, Step, Enabled, Resets, Sent1, Written1;
    if acts == [] {
      assert sent + [] == sent && written + [] == written;
    } else {
      var a := acts[0];
      StepKeepsFifo(s, a, p, sent, written);
      StepKeepsGood(s, a);
      RunKeepsFifo(Step(s, a), acts[1..], t, p, sent + Sent1(a, p), written + Written1(s, a, p));
      assert sent + SentBy(acts, p) == sent + Sent1(a, p) + SentBy(acts[1..], p);
      assert written + WrittenBy(s, acts, p)
          == written + Written1(s, a, p) + WrittenBy(Step(s, a), acts[1..], p);
    }
  }

  lemma NothingSent()
    ensures Fifo(NO_ENDPOINT, [], [])
  {
    assert Names([]) == [];
    assert forall k: nat | k <= HIGHEST :: ListAt(map[], k) == [];
  }

  /**
   In every run from nothing that resets no session, the messages p sent with one priority are those it
   wrote of that priority, in the same order, followed by those that still wait in its list.
   */
  lemma FifoPerPriority(cfg: Config, acts: seq<Action>, t: State, p: Side, prio: nat)
    requires Unreset(Init(cfg), acts) && Run(Init(cfg), acts, t) && prio <= HIGHEST
    ensures At(SentBy(acts, p), prio)
         == At(WrittenBy(Init(cfg), acts, p), prio) + Unwritten(ListAt(Ep(t, p).outQ, prio))
    ensures Names(SentBy(acts, p)) == Ep(t, p).accepted
    ensures Names(WrittenBy(Init(cfg), acts, p)) == Ep(t, p).log
  {
    hide Inv, Run, Unreset, At, Unwritten;
    NothingSent();
    InitInv(cfg);
    RunKeepsFifo(Init(cfg), acts, t, p, [], []);
    assert [] + SentBy(acts, p) == SentBy(acts, p);
    assert [] + WrittenBy(Init(cfg), acts, p) == WrittenBy(Init(cfg), acts, p);
  }

  // ---------------------------------------------------------------- two messages of one priority

  lemma {:induction false} AtConcat(a: seq<Item>, b: seq<Item>, prio: nat)
    ensures At(a + b, prio) == At(a, prio) + At(b, prio)
  {
    if b == [] {
      assert a + b == a;
    } else {
      var last := |b| - 1;
      assert (a + b)[..|a| + last] == a + b[..last];
      AtConcat(a, b[..last], prio);
    }
  }

  /** Where the message at k stands among those of its priority. */
  lemma AtIndex(l: seq<Item>, k: nat)
    requires k < |l|
    ensures var n := |At(l[..k], l[k].prio)|;
            n < |At(l, l[k].prio)| && At(l, l[k].prio)[n] == l[k].id
  {
    hide At;
    AtConcat(l[..k + 1], l[k + 1..], l[k].prio);
    AtSnoc(l[..k], l[k], l[k].prio);
    assert l[..k + 1] == l[..k] + [l[k]];
    assert l[..k + 1] + l[k + 1..] == l;
  }

  lemma AtGrows(l: seq<Item>, i: nat, k: nat, prio: nat)
    requires i <= k <= |l|
    ensures |At(l[..i], prio)| <= |At(l[..k], prio)|
  {
    hide At;
    AtConcat(l[..i], l[i..k], prio);
    assert l[..i] + l[i..k] == l[..k];
  }

  /** The message that stands at n among those of its priority. */
  lemma {:induction false} Origin(l: seq<Item>, prio: nat, n: nat) returns (k: nat)
    requires n < |At(l, prio)|
    ensures k < |l| && l[k] == Item(prio, At(l, prio)[n]) && |At(l[..k], prio)| == n
  {
    var last := |l| - 1;
    if n < |At(l[..last], prio)| {
      k := Origin(l[..last], prio, n);
      assert l[..last][..k] == l[..k];
    } else {
      k := last;
    }
  }

  lemma OneOrMore(l: seq<nat>, i: nat, k: nat)
    requires i < |l| && k < |l| && l[i] == l[k]
    ensures i == k || multiset(l)[l[i]] >= 2
  {
    if i != k {
      var lo, hi := if i < k then i else k, if i < k then k else i;
      assert l == l[..lo] + [l[lo]] + l[lo + 1..hi] + [l[hi]] + l[hi + 1..];
    }
  }

  /** A message sent once is found at one place among those sent. */
  lemma SentOnce(l: seq<Item>, i: nat, k: nat)
    requires i < |l| && k < |l| && l[i].id == l[k].id && multiset(Names(l))[l[i].id] == 1
    ensures i == k
  {
    OneOrMore(Names(l), i, k);
  }

  lemma {:induction false} SentConcat(a: seq<Action>, b: seq<Action>, p: Side)
    ensures SentBy(a + b, p) == SentBy(a, p) + SentBy(b, p)
  {
    hide Sent1;
    if a == [] {
      assert a + b == b;
    } else {
      assert (a + b)[0] == a[0] && (a + b)[1..] == a[1..] + b;
      SentConcat(a[1..], b, p);
    }
  }

  /** Where the message of action i stands among those p sent. */
  lemma SentAt(acts: seq<Action>, p: Side, i: nat)
    requires i < |acts| && acts[i].Send? && acts[i].p == p
    ensures var n := |SentBy(acts[..i], p)|;
            && n < |SentBy(acts, p)| && SentBy(acts, p)[n] == Item(acts[i].prio, acts[i].id)
            && |SentBy(acts[..i + 1], p)| == n + 1
  {
    SentConcat(acts[..i], [acts[i]], p);
    assert SentBy([acts[i]], p) == Sent1(acts[i], p) + SentBy([acts[i]][1..], p);
    hide SentBy;
    SentConcat(acts[..i + 1], acts[i + 1..], p);
    assert acts[..i] + [acts[i]] == acts[..i + 1];
    assert acts[..i + 1] + acts[i + 1..] == acts;
  }

  lemma SentGrows(acts: seq<Action>, p: Side, i: nat, k: nat)
    requires i <= k <= |acts|
    ensures |SentBy(acts[..i], p)| <= |SentBy(acts[..k], p)|
  {
    hide SentBy;
    SentConcat(acts[..i], acts[i..k], p);
    assert acts[..i] + acts[i..k] == acts[..k];
  }

  /** Of two messages of one priority the first sent is written first, if only the two orders agree. */
  lemma WrittenInOrder(sent: seq<Item>, written: seq<Item>, a: nat, b: nat, l: nat) returns (k: nat)
    requires a < b < |sent| && l < |written| && written[l].id == sent[b].id && sent[a].prio == sent[b].prio
    requires multiset(Names(sent))[sent[b].id] == 1
    requires At(written, written[l].prio) <= At(sent, written[l].prio)
    ensures k < l && written[k] == sent[a]
  {
    hide At;
    var prio := written[l].prio;
    AtIndex(written, l);
    var n := |At(written[..l], prio)|;
    var c := Origin(sent, prio, n);
    SentOnce(sent, b, c);
    AtIndex(sent, a);
    AtGrows(sent, a + 1, b, prio);
    AtSnoc(sent[..a], sent[a], prio);
    assert sent[..a + 1] == sent[..a] + [sent[a]];
    k := Origin(written, prio, |At(sent[..a], prio)|);
    if l <= k {
      AtGrows(written, l, k, prio);
    }
  }

  /**
   Of two messages that p sent with the same priority, the earlier is first in the order of writing,
   and the peer dispatches it first.
   */
  lemma EarlierFirst(cfg: Config, acts: seq<Action>, t: State, p: Side, i: nat, j: nat)
    requires Unreset(Init(cfg), acts) && Run(Init(cfg), acts, t)
    requires i < j < |acts| && acts[i].Send? && acts[j].Send? && acts[i].p == acts[j].p == p
    requires acts[i].prio == acts[j].prio && multiset(Ep(t, p).accepted)[acts[j].id] == 1
    ensures forall l: nat | l < |Ep(t, p).log| && Ep(t, p).log[l] == acts[j].id ::
              acts[i].id in Ep(t, p).log[..l]
    ensures var d := Ep(t, Other(p)).dispatched;
            forall l: nat | l < |d| && d[l] == acts[j].id :: acts[i].id in d[..l]
  {
    hide Run, Unreset, Reachable, At, SentBy, WrittenBy, Unwritten;
    var log := Ep(t, p).log;
    forall l: nat | l < |log| && log[l] == acts[j].id ensures acts[i].id in log[..l] {
      var k := LogIndex(cfg, acts, t, p, i, j, l);
      assert log[..l][k] == acts[i].id;
    }
    IsReachable(cfg, acts, t);
    DispatchedIsPrefix(cfg, t, p);
    var d := Ep(t, Other(p)).dispatched;
    forall l: nat | l < |d| && d[l] == acts[j].id ensures acts[i].id in d[..l] {
      assert log[..l] == d[..l];
    }
  }

  lemma IsReachable(cfg: Config, acts: seq<Action>, t: State)
    requires Unreset(Init(cfg), acts) && Run(Init(cfg), acts, t)
    ensures Reachable(cfg, t)
  {
  }

  lemma LogIndex(cfg: Config, acts: seq<Action>, t: State, p: Side, i: nat, j: nat, l: nat) returns (k: nat)
    requires Unreset(Init(cfg), acts) && Run(Init(cfg), acts, t)
    requires i < j < |acts| && acts[i].Send? && acts[j].Send? && acts[i].p == acts[j].p == p
    requires acts[i].prio == acts[j].prio && multiset(Ep(t, p).accepted)[acts[j].id] == 1
    requires l < |Ep(t, p).log| && Ep(t, p).log[l] == acts[j].id
    ensures k < l && Ep(t, p).log[k] == acts[i].id
  {
    hide Run, Unreset, At, SentBy, WrittenBy, Unwritten;
    var sent, written := SentBy(acts, p), WrittenBy(Init(cfg), acts, p);
    SentAt(acts, p, i);
    SentAt(acts, p, j);
    SentGrows(acts, p, i + 1, j);
    var a, b := |SentBy(acts[..i], p)|, |SentBy(acts[..j], p)|;
    WrittenPriorities(cfg, acts, t, p, l);
    FifoPerPriority(cfg, acts, t, p, written[l].prio);
    k := WrittenInOrder(sent, written, a, b, l);
    assert Names(written)[k] == written[k].id;
  }

  lemma WrittenPriorities(cfg: Config, acts: seq<Action>, t: State, p: Side, l: nat)
    requires Unreset(Init(cfg), acts) && Run(Init(cfg), acts, t) && l < |Ep(t, p).log|
    ensures var written := WrittenBy(Init(cfg), acts, p);
            l < |written| && written[l].prio <= HIGHEST && written[l].id == Ep(t, p).log[l]
  {
    hide Inv, Run, Unreset, At, Unwritten;
    NothingSent();
    InitInv(cfg);
    RunKeepsFifo(Init(cfg), acts, t, p, [], []);
    var written := WrittenBy(Init(cfg), acts, p);
    assert [] + written == written;
    assert Names(written)[l] == written[l].id;
    assert written[l] in written;
  }
}
