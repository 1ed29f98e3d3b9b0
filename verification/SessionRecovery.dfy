/**
 Recovery: a client and its server can always finish their work. Whatever state a run has left them in,
 with whichever sockets broken, some continuation connects them, for the first time or again, and
 dispatches every message either of them has accepted; unless the next answer would reset a session.
 */
module SessionRecovery {
  import opened Wrappers
  import opened SendQueue
  import opened Endpoints
  import opened N = Negotiation
  import opened Session
  import opened SessionSafety
  import opened SessionSteps
  import opened SessionReady
  import opened SessionTheorems
  import opened SessionResets
  import opened SessionRoles
  import opened SessionDrain

  predicate ClientServer(cfg: Config, p: Side) {
    !Pol(cfg, p).server && !Pol(cfg, p).standby && Pol(cfg, Other(p)).server
  }

  // ---------------------------------------------------------------- continuations

  predicate SameMessages(s: State, t: State) {
    t.cfg == s.cfg && t.a.accepted == s.a.accepted && t.b.accepted == s.b.accepted
  }

  ghost predicate Sound(s: State) {
    Good(s) && Roles(s)
  }

  /** Some continuation without a reset and without a new message leads from s to t. */
  ghost predicate Leads(s: State, t: State) {
    SameMessages(s, t) && Sound(t) && exists acts :: Run(s, acts, t) && Unreset(s, acts)
  }

  lemma Onwards(s: State, t: State, u: State)
    requires Leads(s, t) && Leads(t, u)
    ensures Leads(s, u)
  {
    hide Sound, Run, Unreset;
    var first :| Run(s, first, t) && Unreset(s, first);
    var second :| Run(t, second, u) && Unreset(t, second);
    Joined(s, first, t, second, u);
  }

  lemma Stay(s: State)
    requires Sound(s)
    ensures Leads(s, s)
  {
    hide Sound;
    assert Run(s, [], s) && Unreset(s, []);
  }

  lemma Take(s: State, a: Action)
    requires Sound(s) && Enabled(s, a) && !Resets(s, a) && SameMessages(s, Step(s, a))
    ensures Leads(s, Step(s, a))
  {
    hide Good, Roles, Inv, Enabled, Step, Resets, SameMessages;
    StepKeepsGood(s, a);
    StepIsRolesStep(s, a);
    var t := Step(s, a);
    assert Run(t, [], t) && Unreset(t, []);
    RunStep(s, a, [], t);
    assert Run(s, [a] + [], t);
  }

  lemma StepIsRolesStep(s: State, a: Action)
    requires Sound(s) && Enabled(s, a) && !Resets(s, a)
    ensures Roles(Step(s, a))
  {
    hide Roles, Inv, HardOk, Enabled, Step, Resets;
    StepKeepsRoles(s, a);
  }

  // ---------------------------------------------------------------- giving up the old sockets

  /**
   No answer of the server to the client's number will reset a session: once the client has been
   connected, or has counted up, the server knows the session; and before that the server has none, or
   takes a client that starts again without checking for resets.
   */
  predicate Agreeable(e: Endpoint, f: Endpoint, server: Policy) {
    if e.connectSeq > 0 then f.connectSeq > 0 else f.connectSeq > 0 ==> !server.resetcheck
  }

  ghost predicate CanMeet(s: State, p: Side) {
    && Sound(s) && ClientServer(s.cfg, p) && !Ep(s, p).phase.Absent?
    && Agreeable(Ep(s, p), Ep(s, Other(p)), Pol(s.cfg, Other(p)))
  }

  /** Side x has no socket and starts, or waits, from nothing. */
  predicate Free(e: Endpoint) {
    e.wire.None? && !e.replacing && !e.hardReset && (e.phase.Absent? || e.phase.Standby? || e.phase.Connecting?)
  }

  /** A swap under way is finished, and then the socket is given up. */
  lemma LetsGo(s: State, p: Side, x: Side) returns (t: State)
    requires CanMeet(s, p)
    ensures Leads(s, t) && CanMeet(t, p) && Ep(t, Other(x)) == Ep(s, Other(x))
    ensures Free(Ep(t, x)) && (x == p ==> Ep(t, p).phase.Connecting?)
  {
    hide Leads, Sound;
    if Ep(s, x).phase.Absent? {
      t := s;
      Stay(s);
      AbsentIsFree(s, x);
      return;
    }
    var s1 := Swapped(s, p, x);
    LeadsSound(s, s1);
    t := Broken(s1, p, x);
    Onwards(s, s1, t);
  }

  lemma AbsentIsFree(s: State, x: Side)
    requires Sound(s) && Ep(s, x).phase.Absent?
    ensures Free(Ep(s, x)) && Ep(s, x).connectSeq == 0
  {
    hide Window, Owned, Direction, HandshakeOk, Roles, HardOk;
    assert SideOk(s, x);
  }

  lemma Swapped(s: State, p: Side, x: Side) returns (t: State)
    requires CanMeet(s, p) && !Ep(s, x).phase.Absent?
    ensures Leads(s, t) && CanMeet(t, p) && Ep(t, Other(x)) == Ep(s, Other(x))
    ensures !Ep(t, x).phase.Replacing? && !Ep(t, x).phase.Absent?
  {
    hide Leads, Inv, HardOk, Roles, Resets, Requeue;
    if Ep(s, x).phase.Replacing? {
      CanFinish(s, x);
      t := Step(s, FinishReplace(x));
      assert !Resets(s, FinishReplace(x)) by { OnlyAccepts(s, FinishReplace(x)); }
      Take(s, FinishReplace(x));
      LeadsSound(s, t);
    } else {
      t := s;
      Stay(s);
    }
  }

  lemma LeadsSound(s: State, t: State)
    requires Leads(s, t)
    ensures Sound(t) && SameMessages(s, t)
  {
    hide Sound, Run, Unreset;
  }

  lemma OnlyAccepts(s: State, a: Action)
    requires Enabled(s, a) && !a.Accept?
    ensures !Resets(s, a)
  {
  }

  lemma CanFinish(s: State, p: Side)
    requires Inv(s) && Ep(s, p).phase.Replacing?
    ensures Enabled(s, FinishReplace(p))
  {
    hide Owned, Direction, PhaseOnWire, NumbersOnWire, Numbered, ListAt, NoEmptyList, AtMostHighest;
    assert SideOk(s, p);
    WhereFacts(s, p);
  }

  /** A server that has a session knows its number. */
  lemma ServerKnows(s: State, p: Side)
    requires Sound(s) && ClientServer(s.cfg, p)
    ensures Ep(s, Other(p)).phase.Absent? <==> Ep(s, Other(p)).connectSeq == 0
    ensures Ep(s, Other(p)).phase.Absent? ==> Ep(s, Other(p)) == NO_ENDPOINT
  {
    hide HardOk, Direction, Owned, HandshakeOk, Window;
    assert SideOk(s, Other(p));
    assert RoleOk(s, Other(p));
  }

  lemma Broken(s: State, p: Side, x: Side) returns (t: State)
    requires CanMeet(s, p) && !Ep(s, x).phase.Replacing? && !Ep(s, x).phase.Absent?
    ensures Leads(s, t) && CanMeet(t, p) && Ep(t, Other(x)) == Ep(s, Other(x))
    ensures Free(Ep(t, x)) && (x == p ==> Ep(t, p).phase.Connecting?)
  {
    hide Leads, Inv, HardOk, Roles, Resets, Fault;
    BreakKeepsInv(s, x, false);
    t := Step(s, Break(x, false));
    Given(s, x);
    FaultGoes(Ep(s, x), Pol(s.cfg, x));
    ServerKnows(s, p);
    if x == p {
      StaysFirst(s, p);
    }
    assert !Resets(s, Break(x, false)) by { OnlyAccepts(s, Break(x, false)); }
    Take(s, Break(x, false));
    LeadsSound(s, t);
  }

  lemma Given(s: State, x: Side)
    requires Inv(s) && !Ep(s, x).phase.Absent?
    ensures var e := Ep(s, x);
            && |e.sent| <= e.outSeq && !e.phase.Closed?
            && (e.phase.AcceptWaitConnect? ==> e.replacing)
  {
    hide Owned, Direction, HandshakeOk, Numbered, ListAt, NoEmptyList, AtMostHighest;
    assert SideOk(s, x);
  }

  lemma FaultGoes(e: Endpoint, pol: Policy)
    requires |e.sent| <= e.outSeq && !e.phase.Absent? && !e.phase.Closed? && !e.phase.Replacing?
    requires e.phase.AcceptWaitConnect? ==> e.replacing
    ensures var f := Fault(e, pol, false);
            && Free(f) && !f.phase.Absent? && (!pol.server && !pol.standby ==> f.phase.Connecting?)
            && f.connectSeq >= e.connectSeq && f.accepted == e.accepted
            && (InConnectingStates(e.phase) || e.phase.RaceWait? ==> f.connectSeq == e.connectSeq)
  {
    hide Requeue;
  }

  /** A client that no server has answered yet is connecting, so a fault leaves its number at 0. */
  lemma StaysFirst(s: State, p: Side)
    requires CanMeet(s, p) && !Ep(s, p).phase.Replacing?
    ensures Ep(s, p).connectSeq == 0 && Ep(s, Other(p)).connectSeq == 0 ==>
              InConnectingStates(Ep(s, p).phase) || Ep(s, p).phase.RaceWait?
  {
    hide HardOk, Direction, Owned, NumbersOnWire, Window, Shape;
    var e := Ep(s, p);
    assert SideOk(s, p);
    assert RoleOk(s, p);
    if e.wire.Some? {
      assert WireRoleOk(s, s.wires[e.wire.value]);
    }
  }

  // ---------------------------------------------------------------- the negotiation on a new socket

  /** p's session is on wire i, whose channels work and hold the given packets. */
  ghost predicate OnWire(s: State, p: Side, i: nat, forward: seq<Packet>, back: seq<Packet>, stage: nat,
                         adopted: bool) {
    && Sound(s) && ClientServer(s.cfg, p)
    && Ep(s, p).wire == Some(i) && i < |s.wires|
    && s.wires[i] == Wire(p, Channel(forward, true), Channel(back, true), stage, adopted)
  }

  ghost predicate Asking(s: State, p: Side, i: nat) {
    && OnWire(s, p, i, [ConnectMsg(Ep(s, p).connectSeq, Ep(s, p).globalSeq)], [], 0, false)
    && Ep(s, p).phase.WaitReply? && CanMeet(s, p) && Free(Ep(s, Other(p)))
  }

  lemma Attempts(s: State, p: Side) returns (t: State)
    requires CanMeet(s, p) && Ep(s, p).phase.Connecting? && Free(Ep(s, Other(p)))
    ensures Leads(s, t) && Asking(t, p, |s.wires|)
  {
    hide Leads, Inv, HardOk, Roles, Resets, NextGlobalSeq;
    t := Step(s, Attempt(p));
    assert !Resets(s, Attempt(p)) by { OnlyAccepts(s, Attempt(p)); }
    Take(s, Attempt(p));
    LeadsSound(s, t);
  }

  /** What a server without a socket answers: the first connect message opens, one of a new client replaces. */
  function Answer(e: Endpoint, c: nat, g: nat): Decision {
    if e.phase.Absent? then Decision.Open
    else if g < e.peerGlobalSeq then RetryGlobal(e.peerGlobalSeq)
    else if c == 0 then Replace(true)
    else if c < e.connectSeq || (c == e.connectSeq && e.phase.Standby?) then RetrySession(e.connectSeq + 1)
    else Replace(false)
  }

  lemma AnswerIs(f: Endpoint, server: Policy, resetcheck: bool, my: nat, peer: nat, c: nat, g: nat)
    requires Free(f) && server.server && (f.phase.Absent? <==> f.connectSeq == 0)
    requires if c > 0 then f.connectSeq > 0 else f.connectSeq > 0 ==> !resetcheck
    ensures var d := Decide(ExistingOf(f, server, true), Acceptor(resetcheck, false, my, peer), N.Connect(c, g));
            d == Answer(f, c, g) && !Losing(d, resetcheck)
  {
  }

  lemma FreeAnswers(s: State, p: Side, i: nat)
    requires Asking(s, p, i)
    ensures Enabled(s, Accept(i, true)) && !Resets(s, Accept(i, true))
    ensures DecisionAt(s, Other(p), true, s.wires[i].forward.q[0])
         == Answer(Ep(s, Other(p)), Ep(s, p).connectSeq, Ep(s, p).globalSeq)
  {
    ServerKnows(s, p);
    hide Sound, Decide, Answer, ExistingOf, Losing, Free, NextOutgoing;
    var q := Other(p);
    var acc := AcceptorOf(s.cfg, q, false);
    OpensWhenAbsent(Ep(s, q), Ep(s, p).connectSeq, Ep(s, p).globalSeq);
    AnswerIs(Ep(s, q), Pol(s.cfg, q), acc.resetcheck, acc.myAddr, acc.peerAddr, Ep(s, p).connectSeq,
             Ep(s, p).globalSeq);
  }

  lemma OpensWhenAbsent(f: Endpoint, c: nat, g: nat)
    ensures Answer(f, c, g).Open? <==> f.phase.Absent?
  {
  }

  /** How many retries the server still asks for. */
  function Retries(e: Endpoint, f: Endpoint): nat {
    (if e.globalSeq < f.peerGlobalSeq then 1 else 0) + (if 0 < e.connectSeq <= f.connectSeq then 1 else 0)
  }

  /** The server has asked for another attempt. */
  ghost predicate Replied(s: State, p: Side, i: nat, d: Decision) {
    && OnWire(s, p, i, [], [Reply(d)], 0, false)
    && Ep(s, p).phase.WaitReply? && CanMeet(s, p) && Free(Ep(s, Other(p)))
  }

  lemma AnswersAgain(s: State, p: Side, i: nat, d: Decision) returns (t: State)
    requires Asking(s, p, i) && d == Answer(Ep(s, Other(p)), Ep(s, p).connectSeq, Ep(s, p).globalSeq) && IsRetry(d)
    ensures Leads(s, t) && Replied(t, p, i, d) && Ep(t, p) == Ep(s, p) && Ep(t, Other(p)) == Ep(s, Other(p))
  {
    hide Leads, Sound, Resets, Decide, Answer;
    FreeAnswers(s, p, i);
    t := Step(s, Accept(i, true));
    Take(s, Accept(i, true));
    LeadsSound(s, t);
  }

  lemma Follows(s: State, p: Side, i: nat, d: Decision) returns (t: State)
    requires Replied(s, p, i, d) && (d.RetryGlobal? || (d.RetrySession? && d.connectSeq > 0))
    requires d.RetrySession? ==> Ep(s, p).connectSeq > 0
    ensures Leads(s, t) && Asking(t, p, i) && Ep(t, Other(p)) == Ep(s, Other(p))
    ensures var e, e2 := Ep(s, p), Ep(t, p);
            if d.RetryGlobal? then e2.connectSeq == e.connectSeq && e2.globalSeq > d.globalSeq
            else e2.connectSeq == d.connectSeq && e2.globalSeq == e.globalSeq
  {
    hide Leads, Sound, Resets;
    t := Step(s, Receive(p));
    assert !Resets(s, Receive(p)) by { OnlyAccepts(s, Receive(p)); }
    Take(s, Receive(p));
    LeadsSound(s, t);
  }

  lemma Retry(s: State, p: Side, i: nat) returns (t: State)
    requires Asking(s, p, i) && IsRetry(Answer(Ep(s, Other(p)), Ep(s, p).connectSeq, Ep(s, p).globalSeq))
    ensures Leads(s, t) && Asking(t, p, i) && Ep(t, Other(p)) == Ep(s, Other(p))
    ensures Retries(Ep(t, p), Ep(t, Other(p))) < Retries(Ep(s, p), Ep(s, Other(p)))
  {
    hide Leads, Asking, Replied;
    var d := Answer(Ep(s, Other(p)), Ep(s, p).connectSeq, Ep(s, p).globalSeq);
    var t1 := AnswersAgain(s, p, i, d);
    t := Follows(t1, p, i, d);
    Onwards(s, t1, t);
  }

  /** The server has taken the wire for its session. */
  ghost predicate Taken(s: State, p: Side, i: nat) {
    && OnWire(s, p, i, [], [], 0, true) && Ep(s, p).phase.WaitReply?
    && Ep(s, Other(p)).phase.Replacing? && Ep(s, Other(p)).wire == Some(i)
  }

  /** The server has opened and told its numbers. */
  ghost predicate Numbered1(s: State, p: Side, i: nat) {
    var f := Ep(s, Other(p));
    && OnWire(s, p, i, [], [SeqReply(f.connectSeq, f.counter), InSeq(f.inSeq)], 1, true)
    && Ep(s, p).phase.WaitReply? && f.phase.AcceptWaitSeq? && f.wire == Some(i)
  }

  lemma IsTaken(s: State, p: Side, i: nat) returns (t: State)
    requires Asking(s, p, i) && !IsRetry(Answer(Ep(s, Other(p)), Ep(s, p).connectSeq, Ep(s, p).globalSeq))
    ensures Leads(s, t) && (Taken(t, p, i) || Numbered1(t, p, i))
  {
    hide Leads, Sound, Resets, Decide, StartOver;
    FreeAnswers(s, p, i);
    ServerKnows(s, p);
    t := Step(s, Accept(i, true));
    Take(s, Accept(i, true));
    LeadsSound(s, t);
  }

  lemma {:induction false} Negotiates(s: State, p: Side, i: nat) returns (t: State)
    requires Asking(s, p, i)
    ensures Leads(s, t) && (Taken(t, p, i) || Numbered1(t, p, i))
    decreases Retries(Ep(s, p), Ep(s, Other(p)))
  {
    hide Leads, Asking, Taken, Numbered1;
    if !IsRetry(Answer(Ep(s, Other(p)), Ep(s, p).connectSeq, Ep(s, p).globalSeq)) {
      t := IsTaken(s, p, i);
    } else {
      var t1 := Retry(s, p, i);
      t := Negotiates(t1, p, i);
      Onwards(s, t1, t);
    }
  }

  // ---------------------------------------------------------------- the handshake

  ghost predicate Asked(s: State, p: Side, i: nat) {
    && OnWire(s, p, i, [], [Reply(RetryGlobal(Ep(s, Other(p)).peerGlobalSeq))], 0, true)
    && Ep(s, p).phase.WaitReply?
    && Ep(s, Other(p)).phase.AcceptWaitConnect? && Ep(s, Other(p)).wire == Some(i)
  }

  lemma AsksAgain(s: State, p: Side, i: nat) returns (t: State)
    requires Taken(s, p, i)
    ensures Leads(s, t) && Asked(t, p, i)
  {
    hide Leads, Inv, HardOk, Roles, Resets, Requeue;
    var q := Other(p);
    CanFinish(s, q);
    t := Step(s, FinishReplace(q));
    assert !Resets(s, FinishReplace(q)) by { OnlyAccepts(s, FinishReplace(q)); }
    Take(s, FinishReplace(q));
    LeadsSound(s, t);
  }

  ghost predicate Told(s: State, p: Side, i: nat) {
    && OnWire(s, p, i, [ConnectMsg(Ep(s, p).connectSeq, Ep(s, p).globalSeq)], [], 0, true)
    && Ep(s, p).phase.WaitReply?
    && Ep(s, Other(p)).phase.AcceptWaitConnect? && Ep(s, Other(p)).wire == Some(i)
    && Ep(s, Other(p)).replacing
  }

  lemma Replacing(s: State, p: Side)
    requires Inv(s) && Ep(s, p).phase.AcceptWaitConnect?
    ensures Ep(s, p).replacing
  {
    hide Owned, Direction, HandshakeOk, Window;
    assert SideOk(s, p);
  }

  lemma TellsAgain(s: State, p: Side, i: nat) returns (t: State)
    requires Asked(s, p, i)
    ensures Leads(s, t) && Told(t, p, i)
  {
    hide Leads, Inv, HardOk, Roles, Resets;
    Replacing(s, Other(p));
    t := Step(s, Receive(p));
    assert !Resets(s, Receive(p)) by { OnlyAccepts(s, Receive(p)); }
    Take(s, Receive(p));
    LeadsSound(s, t);
  }

  /** The server has opened for a client that starts again, without an exchange of numbers. */
  ghost predicate Readied1(s: State, p: Side, i: nat) {
    var f := Ep(s, Other(p));
    && OnWire(s, p, i, [], [ReadyReply(f.connectSeq, f.counter)], 4, true)
    && Ep(s, p).phase.WaitReply? && f.phase.AcceptReady? && f.wire == Some(i)
  }

  lemma Opens(s: State, p: Side, i: nat) returns (t: State)
    requires Told(s, p, i)
    ensures Leads(s, t)
    ensures if Ep(s, Other(p)).hardReset then Readied1(t, p, i) else Numbered1(t, p, i)
  {
    hide Leads, Inv, HardOk, Roles, Resets, Discard, DiscardCount, Ids, IdList;
    var q := Other(p);
    t := Step(s, Receive(q));
    assert !Resets(s, Receive(q)) by { OnlyAccepts(s, Receive(q)); }
    Take(s, Receive(q));
    LeadsSound(s, t);
  }

  ghost predicate Readied2(s: State, p: Side, i: nat) {
    && OnWire(s, p, i, [], [], 3, true) && (Ep(s, p).phase.ConnectReady? || Ep(s, p).phase.Open?)
    && Ep(s, Other(p)).phase.AcceptReady? && Ep(s, Other(p)).wire == Some(i)
  }

  lemma ReadsReady(s: State, p: Side, i: nat) returns (t: State)
    requires Readied1(s, p, i)
    ensures Leads(s, t) && Readied2(t, p, i)
  {
    hide Leads, Inv, HardOk, Roles, Resets;
    t := Step(s, Receive(p));
    assert !Resets(s, Receive(p)) by { OnlyAccepts(s, Receive(p)); }
    Take(s, Receive(p));
    LeadsSound(s, t);
  }

  /** Either end becomes open, without a word. */
  lemma BecomesOpen(s: State, x: Side) returns (t: State)
    requires Sound(s) && (Ep(s, x).phase.ConnectReady? || Ep(s, x).phase.AcceptReady?)
    ensures Leads(s, t) && t == WithEp(s, x, BecomeOpen(Ep(s, x)))
  {
    hide Leads, Inv, HardOk, Roles, Resets;
    t := Step(s, Ready(x));
    assert !Resets(s, Ready(x)) by { OnlyAccepts(s, Ready(x)); }
    Take(s, Ready(x));
  }

  lemma BothReady(s: State, p: Side, i: nat) returns (t: State)
    requires Readied1(s, p, i)
    ensures Leads(s, t) && Sound(t) && Linked(t, p) && Linked(t, Other(p))
  {
    hide Leads, Sound;
    var s1 := ReadsReady(s, p, i);
    var s2 := s1;
    Stay(s1);
    if Ep(s1, p).phase.ConnectReady? {
      s2 := BecomesOpen(s1, p);
      LeadsSound(s1, s2);
    }
    Onwards(s, s1, s2);
    t := BecomesOpen(s2, Other(p));
    LeadsSound(s2, t);
    Onwards(s, s2, t);
  }

  ghost predicate Numbered2(s: State, p: Side, i: nat) {
    var f := Ep(s, Other(p));
    && OnWire(s, p, i, [], [InSeq(f.inSeq)], 1, true)
    && Ep(s, p).phase.WaitAckSeq? && f.phase.AcceptWaitSeq? && f.wire == Some(i)
  }

  lemma ReadsSeq(s: State, p: Side, i: nat) returns (t: State)
    requires Numbered1(s, p, i)
    ensures Leads(s, t) && Numbered2(t, p, i)
  {
    hide Leads, Inv, HardOk, Roles, Resets;
    t := Step(s, Receive(p));
    assert !Resets(s, Receive(p)) by { OnlyAccepts(s, Receive(p)); }
    Take(s, Receive(p));
    LeadsSound(s, t);
  }

  ghost predicate Numbered3(s: State, p: Side, i: nat) {
    && OnWire(s, p, i, [InSeq(Ep(s, p).inSeq)], [], 2, true)
    && (Ep(s, p).phase.ConnectReady? || Ep(s, p).phase.Open?)
    && Ep(s, Other(p)).phase.AcceptWaitSeq? && Ep(s, Other(p)).wire == Some(i)
  }

  lemma ReadsNumber(s: State, p: Side, i: nat) returns (t: State)
    requires Numbered2(s, p, i)
    ensures Leads(s, t) && Numbered3(t, p, i)
  {
    hide Leads, Inv, HardOk, Roles, Resets, Discard, DiscardCount, Ids, IdList;
    t := Step(s, Receive(p));
    assert !Resets(s, Receive(p)) by { OnlyAccepts(s, Receive(p)); }
    Take(s, Receive(p));
    LeadsSound(s, t);
  }

  lemma ClientOpens(s: State, p: Side, i: nat) returns (t: State)
    requires Numbered3(s, p, i)
    ensures Leads(s, t) && Numbered3(t, p, i) && Ep(t, p).phase.Open?
  {
    hide Leads, Inv, HardOk, Roles, Resets;
    if Ep(s, p).phase.Open? {
      t := s;
      Stay(s);
      return;
    }
    t := Step(s, Ready(p));
    assert !Resets(s, Ready(p)) by { OnlyAccepts(s, Ready(p)); }
    Take(s, Ready(p));
    LeadsSound(s, t);
  }

  lemma ServerOpens(s: State, p: Side, i: nat) returns (t: State)
    requires Numbered3(s, p, i) && Ep(s, p).phase.Open?
    ensures Leads(s, t) && Sound(t) && Linked(t, p) && Linked(t, Other(p))
  {
    hide Leads, Inv, HardOk, Roles, Resets, Discard, DiscardCount, Ids, IdList;
    var q := Other(p);
    t := Step(s, Receive(q));
    assert !Resets(s, Receive(q)) by { OnlyAccepts(s, Receive(q)); }
    Take(s, Receive(q));
    LeadsSound(s, t);
  }

  /** The exchange of numbers. */
  lemma Exchanges(s: State, p: Side, i: nat) returns (t: State)
    requires Numbered1(s, p, i)
    ensures Leads(s, t) && Sound(t) && Linked(t, p) && Linked(t, Other(p))
  {
    hide Leads, Sound, Numbered1, Numbered2, Numbered3, Linked;
    var s1 := ReadsSeq(s, p, i);
    var s2 := ReadsNumber(s1, p, i);
    Onwards(s, s1, s2);
    var s3 := ClientOpens(s2, p, i);
    Onwards(s, s2, s3);
    t := ServerOpens(s3, p, i);
    Onwards(s, s3, t);
  }

  lemma ShakesHands(s: State, p: Side, i: nat) returns (t: State)
    requires Taken(s, p, i)
    ensures Leads(s, t) && Sound(t) && Linked(t, p) && Linked(t, Other(p))
  {
    hide Leads, Sound, Taken, Asked, Told, Numbered1, Readied1, Linked;
    var s1 := AsksAgain(s, p, i);
    var s2 := TellsAgain(s1, p, i);
    Onwards(s, s1, s2);
    var s3 := Opens(s2, p, i);
    Onwards(s, s2, s3);
    if Ep(s2, Other(p)).hardReset {
      t := BothReady(s3, p, i);
    } else {
      t := Exchanges(s3, p, i);
    }
    Onwards(s, s3, t);
  }

  /** A client that has done nothing yet starts. */
  lemma Starts(s: State, p: Side) returns (t: State)
    requires Sound(s) && ClientServer(s.cfg, p) && Agreeable(Ep(s, p), Ep(s, Other(p)), Pol(s.cfg, Other(p)))
    ensures Leads(s, t) && CanMeet(t, p)
  {
    hide Leads, Inv, HardOk, Roles, Resets;
    if Ep(s, p).phase.Absent? {
      t := Step(s, Start(p));
      assert !Resets(s, Start(p)) by { OnlyAccepts(s, Start(p)); }
      Take(s, Start(p));
      LeadsSound(s, t);
    } else {
      t := s;
      Stay(s);
    }
  }

  /** Whatever broke, the client and its server can be open on one working socket. */
  lemma Reconnects(s: State, p: Side) returns (t: State)
    requires CanMeet(s, p)
    ensures Leads(s, t) && Sound(t) && Linked(t, p) && Linked(t, Other(p))
  {
    hide Leads, Sound, Asking, Taken, Numbered1, Linked;
    var s1 := LetsGo(s, p, p);
    var s2 := LetsGo(s1, p, Other(p));
    Onwards(s, s1, s2);
    var s3 := Attempts(s2, p);
    Onwards(s, s2, s3);
    var i := |s2.wires|;
    var s4 := Negotiates(s3, p, i);
    Onwards(s, s3, s4);
    if Taken(s4, p, i) {
      t := ShakesHands(s4, p, i);
    } else {
      t := Exchanges(s4, p, i);
    }
    Onwards(s, s4, t);
  }

  /** p's side of an open session settles, and the run stays good. */
  lemma Settled(s: State, p: Side) returns (t: State)
    requires Sound(s) && Linked(s, p) && Linked(s, Other(p))
    ensures Leads(s, t) && Linked(t, p) && Linked(t, Other(p)) && AllDone(t, p)
    ensures AllDone(s, Other(p)) ==> AllDone(t, Other(p))
    ensures multiset(Ep(t, p).log) == multiset(Ep(s, p).accepted)
  {
    hide Inv, HardOk, Roles, Linked, Run, Unreset, AllDone;
    var acts;
    acts, t := OpenSessionSettles(s, p);
    LinkedBothWays(t, p);
    RunKeepsInv(s, acts, t);
    RunKeepsRoles(s, acts, t);
    RunKeepsConfig(s, acts, t);
  }

  lemma {:induction false} RunKeepsConfig(s: State, acts: seq<Action>, t: State)
    requires Run(s, acts, t)
    ensures t.cfg == s.cfg
    decreases |acts|
  {
    hide Step, Enabled;
    if acts != [] {
      StepKeepsConfig(s, acts[0]);
      RunKeepsConfig(Step(s, acts[0]), acts[1..], t);
    }
  }

  /** With nothing held, what was accepted is what is finished, and that is what was written. */
  lemma WrittenOnce(s: State)
    requires Good(s) && AllDone(s, A) && AllDone(s, B)
    ensures multiset(s.a.log) == multiset(s.a.accepted) && multiset(s.b.log) == multiset(s.b.accepted)
  {
    hide Direction, HandshakeOk, Shape, Window;
    assert SideOk(s, A) && SideOk(s, B);
  }

  /**
   From every state that a run without resets reaches and in which the server will not answer the client's
   number with a reset: some continuation, without a reset and without a new message,
   connects the two, dispatches every message that either side has accepted, as often as it was accepted
   and in the order of the first writes, and has each sender release all of them.
   */
  lemma EverythingArrives(cfg: Config, s: State, p: Side) returns (t: State)
    requires Reachable(cfg, s) && ClientServer(s.cfg, p)
    requires Agreeable(Ep(s, p), Ep(s, Other(p)), Pol(s.cfg, Other(p)))
    ensures Leads(s, t) && Linked(t, p) && Linked(t, Other(p))
    ensures t.b.dispatched == t.a.log && multiset(t.b.dispatched) == multiset(s.a.accepted)
    ensures t.a.dispatched == t.b.log && multiset(t.a.dispatched) == multiset(s.b.accepted)
    ensures t.a.outQ == t.b.outQ == map[] && t.a.sent == t.b.sent == [] && t.a.refs == t.b.refs == multiset{}
  {
    hide Leads, Good, Roles, Linked, Reachable;
    ReachableRoles(cfg, s);
    var s0 := Starts(s, p);
    LeadsSound(s, s0);
    var s1 := Reconnects(s0, p);
    LeadsSound(s0, s1);
    Onwards(s, s0, s1);
    BothSides(s1, p);
    var s2 := Settled(s1, A);
    Onwards(s, s1, s2);
    LeadsSound(s1, s2);
    t := Settled(s2, B);
    LeadsSound(s2, t);
    Onwards(s, s2, t);
    WrittenOnce(t);
    EitherSide(t, p);
  }

  lemma EitherSide(t: State, p: Side)
    requires Linked(t, A) && Linked(t, B)
    ensures Linked(t, p) && Linked(t, Other(p))
  {
    hide Linked;
  }

  lemma BothSides(s: State, p: Side)
    requires Linked(s, p) && Linked(s, Other(p))
    ensures Linked(s, A) && Linked(s, B)
  {
    hide Linked;
  }
}
