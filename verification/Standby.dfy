/**
 Who makes sure a queued message gets going: `send_message` takes only the write lock, `fault` and the
 second half of `handle_write` take the connection lock as well, and between their critical sections
 anything can happen (hardware_async/rdma/backed_RDMAReliableConnected.cc 1697-1736, 1905-1912, 1943-1962,
 2042-2119, 2436-2517; the counts stand for out_q with outcoming_bl, and for sent).
 */
module Standby {

  datatype Status = Standby | Connecting | Accepting | Open | Wait | Replaced | Closed

  datatype WriteStatus = NOWRITE | REPLACING | CANWRITE | CLOSED

  /** The connection's own thread inside `handle_write`. */
  datatype Handler =
    | Away
    | Writing      // saw CANWRITE: in the write loop
    | Declined     // saw something else and let go of the write lock; the connection lock is next

  /** A thread inside `fault`: Tail has let go of the write lock and keeps the connection lock. */
  datatype Faulting = NoFault | Tail

  datatype Policy = Policy(server: bool, standby: bool)

  datatype State = State(
    status: Status,
    canWrite: WriteStatus,
    queued: nat,        // waiting to be written
    sent: nat,          // written, not acknowledged
    events: nat,        // write handler events in the event loop's queue
    writable: bool,     // registered for writability (open_write)
    handler: Handler,
    faulting: Faulting)

  datatype Action =
    | SendMessage
    | Handle(fromSocket: bool)
    | WriteOne
    | WriteEnd(blocked: bool)
    | WriteAbort
    | Decline
    | Fault(halfAccepted: bool)
    | FaultTail
    | Replace
    | Transfer
    | Opened
    | MustWait
    | Ack(n: nat)
    | Stop

  predicate LockFree(s: State) {
    s.faulting.NoFault?
  }

  predicate Enabled(s: State, a: Action) {
    match a
    case SendMessage => true
    case Handle(fromSocket) => s.handler.Away? && (if fromSocket then s.writable else s.events > 0)
    case WriteOne => s.handler.Writing? && s.canWrite.CANWRITE? && s.queued > 0
    case WriteEnd(blocked) => s.handler.Writing? && (blocked || s.queued == 0 || !s.canWrite.CANWRITE?)
    case WriteAbort => s.handler.Writing? && LockFree(s)
    case Decline => s.handler.Declined? && LockFree(s)
    case Fault(halfAccepted) => LockFree(s) && !s.status.Closed? && !s.status.Replaced?
    case FaultTail => s.faulting.Tail?
    case Replace => LockFree(s) && !s.status.Closed?
    case Transfer => LockFree(s) && s.status.Replaced?
    case Opened => LockFree(s) && (s.status.Connecting? || s.status.Accepting?)
    case MustWait => LockFree(s) && s.status.Connecting?
    case Ack(n) => LockFree(s) && s.status.Open? && n <= s.sent
    case Stop => LockFree(s)
  }

  /**
   The first critical section of `fault`: everything sent is queued again; with nothing queued a
   connection that was never ready and is only half accepted closes (halfAccepted), and a standby policy goes
   to standby.
   */
  function FaultHead(p: Policy, s: State, halfAccepted: bool): State {
    var q := s.queued + s.sent;
    var s1 := s.(canWrite := NOWRITE, queued := q, sent := 0, writable := false);
    if halfAccepted && q == 0 && s.status.Accepting? then s1.(status := Closed, canWrite := CLOSED)
    else if p.standby && q == 0 && !s.status.Wait? then s1.(status := Standby) else s1.(faulting := Tail)
  }

  function Step(p: Policy, s: State, a: Action): State
    requires Enabled(s, a)
  {
    match a
    case SendMessage =>
      if s.canWrite.CLOSED? then s
      else s.(queued := s.queued + 1, events := s.events + if s.canWrite.REPLACING? then 0 else 1)
    case Handle(fromSocket) =>
      s.(events := if fromSocket then s.events else s.events - 1,
         handler := if s.canWrite.CANWRITE? then Writing else Declined)
    case WriteOne => s.(queued := s.queued - 1, sent := s.sent + 1)
    case WriteEnd(blocked) =>
      s.(handler := Away, writable := s.canWrite.CANWRITE? && if blocked then true else s.writable && s.queued > 0)
    case WriteAbort =>
      if s.status.Closed? || s.status.Replaced? then s.(handler := Away) else FaultHead(p, s.(handler := Away), false)
    case Decline =>
      s.(handler := Away, status := if s.status.Standby? && !p.server && s.queued > 0 then Connecting else s.status)
    case Fault(halfAccepted) => FaultHead(p, s, halfAccepted)
    case FaultTail =>
      s.(faulting := NoFault,
         status := if s.status.Connecting? || s.status.Wait? || !p.server then Connecting else Standby)
    case Replace =>
      s.(status := Replaced, canWrite := REPLACING, writable := false)
    case Transfer => s.(status := Accepting, queued := s.queued + s.sent, sent := 0)
    case Opened => s.(status := Open, canWrite := CANWRITE, events := s.events + if s.queued > 0 then 1 else 0)
    case MustWait => s.(status := Wait)
    case Ack(n) => s.(sent := s.sent - n)
    case Stop => s.(status := Closed, canWrite := CLOSED, queued := 0, sent := 0, writable := false)
  }

  /** A queued message that may be written, or that a client has in standby, has somebody coming for it. */
  ghost predicate Inv(p: Policy, s: State) {
    && (s.status.Standby? ==> s.canWrite.NOWRITE? && s.sent == 0)
    && (s.faulting.Tail? ==> s.canWrite.NOWRITE? && s.sent == 0 && !s.status.Replaced? && !s.status.Closed?)
    && (s.canWrite.CANWRITE? ==> s.status.Open? && LockFree(s))
    && (s.status.Open? && LockFree(s) ==> s.canWrite.CANWRITE?)
    && (s.sent > 0 ==> s.status.Open? || s.status.Replaced?)
    && (s.status.Replaced? ==> s.canWrite.REPLACING?)
    && (s.writable ==> s.canWrite.CANWRITE?)
    && (s.status.Standby? && LockFree(s) && !p.server && s.queued > 0 ==> s.events > 0 || s.handler.Declined?)
    && (s.canWrite.CANWRITE? && s.queued > 0 ==> s.events > 0 || s.writable || s.handler.Writing?)
  }

  lemma StepKeepsInv(p: Policy, s: State, a: Action)
    requires Inv(p, s) && Enabled(s, a)
    ensures Inv(p, Step(p, s, a))
  {
  }

  ghost predicate CanRun(p: Policy, s: State, run: seq<Action>)
    decreases |run|
  {
    run == [] || (Enabled(s, run[0]) && CanRun(p, Step(p, s, run[0]), run[1..]))
  }

  ghost function After(p: Policy, s: State, run: seq<Action>): State
    requires CanRun(p, s, run)
    decreases |run|
  {
    if run == [] then s else After(p, Step(p, s, run[0]), run[1..])
  }

  lemma {:induction false} RunKeepsInv(p: Policy, s: State, run: seq<Action>)
    requires Inv(p, s) && CanRun(p, s, run)
    ensures Inv(p, After(p, s, run))
    decreases |run|
  {
    hide Inv, Step, Enabled;
    if run != [] {
      StepKeepsInv(p, s, run[0]);
      RunKeepsInv(p, Step(p, s, run[0]), run[1..]);
    }
  }

  /**
   No step of this race loses or invents a message: a send adds one unless the connection is closed, an
   acknowledgement takes off what it names, closing drops all, and a write moves one from the queue to sent.
   */
  lemma MessagesCounted(p: Policy, s: State, a: Action)
    requires Inv(p, s) && Enabled(s, a)
    ensures var t := Step(p, s, a);
            && t.queued + t.sent == (match a
                 case SendMessage => s.queued + s.sent + if s.canWrite.CLOSED? then 0 else 1
                 case Ack(n) => s.queued + s.sent - n
                 case Stop => 0
                 case _ => s.queued + s.sent)
            && (a.WriteOne? ==> t.queued < s.queued)
            && (t.queued > s.queued ==> a.SendMessage? || t.sent == 0)
  {
  }

  /** A new connection: connecting or accepting, nothing queued, nobody inside. */
  predicate Init(s: State) {
    s == State(Connecting, NOWRITE, 0, 0, 0, false, Away, NoFault)
        || s == State(Accepting, NOWRITE, 0, 0, 0, false, Away, NoFault)
  }

  predicate Waits(p: Policy, s: State) {
    s.status.Standby? && LockFree(s) && !p.server && s.queued > 0
  }

  /** What the handler does next when it is left to run. */
  function HandlerStep(s: State): Action {
    match s.handler
    case Away => Handle(false)
    case Writing => WriteEnd(false)
    case Declined => Decline
  }

  /** The handler's distance from the reconnect. */
  function Distance(s: State): nat {
    match s.handler
    case Writing => 3
    case Away => 2
    case Declined => 1
  }

  /**
   In every interleaving: a non-server connection in standby with something queued has a write event
   outstanding or a handler past it; the handler's next step is possible, and at each one it either
   reconnects or comes closer. Senders in between change nothing of that.
   */
  lemma NoClientWaitsInStandby(p: Policy, s0: State, run: seq<Action>)
    requires Init(s0) && CanRun(p, s0, run)
    ensures var s := After(p, s0, run);
            Waits(p, s) ==>
              && (s.events > 0 || s.handler.Declined?)
              && Enabled(s, HandlerStep(s))
              && (var t := Step(p, s, HandlerStep(s));
                  t.status.Connecting? || (Waits(p, t) && Distance(t) < Distance(s)))
              && (var u := Step(p, s, SendMessage); Waits(p, u) && Distance(u) == Distance(s) && u.events > s.events)
  {
    RunKeepsInv(p, s0, run);
  }

  /**
   The same on an open connection: whenever a message may be written, a write event, a writable socket
   or a handler in its loop will see it, also for messages queued while the session was being replaced.
   */
  lemma NoMessageForgotten(p: Policy, s0: State, run: seq<Action>)
    requires Init(s0) && CanRun(p, s0, run)
    ensures var s := After(p, s0, run);
            && (s.status.Open? && LockFree(s) ==> s.canWrite.CANWRITE?)
            && (s.canWrite.CANWRITE? && s.queued > 0 ==> s.events > 0 || s.writable || s.handler.Writing?)
  {
    RunKeepsInv(p, s0, run);
  }

  /** For a server it can happen, and is meant to: the peer has to come back. */
  lemma ServerWaitsInStandby(p: Policy) returns (s0: State, run: seq<Action>)
    requires p.server && p.standby
    ensures Init(s0) && CanRun(p, s0, run)
    ensures var s := After(p, s0, run); s.status.Standby? && s.queued > 0 && s.events == 0 && s.handler.Away?
  {
    s0 := State(Accepting, NOWRITE, 0, 0, 0, false, Away, NoFault);
    var r5: seq<Action> := [];
    var r4 := [Decline] + r5;
    var r3 := [Handle(false)] + r4;
    var r2 := [FaultTail] + r3;
    var r1 := [Fault(false)] + r2;
    run := [SendMessage] + r1;
    assert run[1..] == r1 && r1[1..] == r2 && r2[1..] == r3 && r3[1..] == r4 && r4[1..] == r5;
    var s1 := Step(p, s0, SendMessage);
    var s2 := Step(p, s1, Fault(false));
    var s3 := Step(p, s2, FaultTail);
    var s4 := Step(p, s3, Handle(false));
    var s5 := Step(p, s4, Decline);
    assert CanRun(p, s5, r5) && After(p, s5, r5) == s5;
    assert CanRun(p, s4, r4) && After(p, s4, r4) == s5;
    assert CanRun(p, s3, r3) && After(p, s3, r3) == s5;
    assert CanRun(p, s2, r2) && After(p, s2, r2) == s5;
    assert CanRun(p, s1, r1) && After(p, s1, r1) == s5;
  }
}
