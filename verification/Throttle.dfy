/**
 The three reservations a message needs while it is read: one in the policy's message throttle, its
 bytes in the policy's byte throttle, its bytes in the dispatch throttle
 (hardware_async/rdma/backed_RDMAReliableConnected.cc 482-547, 693-739, 1662-1704, 2042-2119, 2148-2171, 2296-2333;
 states: hardware_async/rdma/RDMAReliableConnected.h 238-273). Whether a throttle grants is an input.
 */
module Throttle {

  const NONE: nat := 0
  const OPEN: nat := 1
  const MESSAGE_HEADER: nat := 5
  const THROTTLE_MESSAGE: nat := 6
  const THROTTLE_BYTES: nat := 7
  const THROTTLE_DISPATCH_QUEUE: nat := 8
  const READ_FRONT: nat := 9
  const READ_DATA: nat := 12
  const READ_FOOTER_AND_DISPATCH: nat := 13
  const CONNECTING: nat := 16
  const CONNECTING_READY: nat := 23
  const ACCEPTING: nat := 24
  const ACCEPTING_WAIT_CONNECT_MSG_AUTH: nat := 27
  const STANDBY: nat := 30
  const CLOSED: nat := 31
  const WAIT: nat := 32

  datatype Reservation = Reservation(messages: int, bytes: int, dispatch: int)

  function Plus(a: Reservation, b: Reservation): Reservation {
    Reservation(a.messages + b.messages, a.bytes + b.bytes, a.dispatch + b.dispatch)
  }

  function Minus(a: Reservation, b: Reservation): Reservation {
    Reservation(a.messages - b.messages, a.bytes - b.bytes, a.dispatch - b.dispatch)
  }

  /** Which throttles the policy has, and what decides where a fault leads. */
  datatype Policy = Policy(messages: bool, bytes: bool, lossy: bool, server: bool, standby: bool)

  /** Everything a message of this size reserves. */
  function Full(p: Policy, size: nat): Reservation {
    Reservation(if p.messages then 1 else 0, if p.bytes then size else 0, size)
  }

  /** What the connection holds at a place in the state order. */
  function Held(p: Policy, state: nat, size: nat): Reservation {
    if state <= THROTTLE_MESSAGE || state > READ_FOOTER_AND_DISPATCH then Reservation(0, 0, 0)
    else
      Reservation(
        Full(p, size).messages,
        if state > THROTTLE_BYTES then Full(p, size).bytes else 0,
        if state > THROTTLE_DISPATCH_QUEUE then Full(p, size).dispatch else 0)
  }

  function Total(queued: seq<Reservation>): Reservation {
    if queued == [] then Reservation(0, 0, 0) else Plus(queued[0], Total(queued[1..]))
  }

  /** taken: what the throttles count for this connection; queued: what the messages it handed on carry. */
  datatype View = View(state: nat, size: nat, taken: Reservation, queued: seq<Reservation>)

  datatype Outcome = Broken | Stale | Next

  /** What else `fault` looks at: once_ready, is_queued and replacing. */
  datatype Flags = Flags(onceReady: bool, queued: bool, replacing: bool)

  datatype Action =
    | Header
    | WantMessage(ok: bool)
    | WantBytes(ok: bool, len: nat)
    | WantDispatch(ok: bool)
    | Advance
    | Footer(outcome: Outcome)
    | Move(next: nat)
    | Fault(flags: Flags)
    | Stop
    | Replace
    | Done(i: nat)

  /** Outside the states in which something may be held. */
  predicate Outside(state: nat) {
    state < THROTTLE_MESSAGE || state > READ_FOOTER_AND_DISPATCH
  }

  predicate Enabled(v: View, a: Action) {
    match a
    case Header => v.state == MESSAGE_HEADER
    case WantMessage(ok) => v.state == THROTTLE_MESSAGE
    case WantBytes(ok, len) => v.state == THROTTLE_BYTES
    case WantDispatch(ok) => v.state == THROTTLE_DISPATCH_QUEUE
    case Advance => READ_FRONT <= v.state <= READ_DATA
    case Footer(outcome) => v.state == READ_FOOTER_AND_DISPATCH
    case Move(next) => Outside(v.state) && Outside(next)
    case Fault(_) => true
    case Stop => true
    case Replace => v.state != CLOSED
    case Done(i) => i < |v.queued|
  }

  /** `reset_recv_state`: the conditional releases. The state stays. */
  function Reset(p: Policy, v: View): View {
    v.(taken := Minus(v.taken, Held(p, v.state, v.size)))
  }

  /** `_stop`. */
  function StopStep(p: Policy, v: View): View {
    if v.state == CLOSED then v else Reset(p, v).(state := CLOSED)
  }

  predicate InConnectingStates(state: nat) {
    CONNECTING <= state < CONNECTING_READY
  }

  function FaultTarget(p: Policy, state: nat, queued: bool): nat {
    if p.standby && !queued && state != WAIT then STANDBY
    else if !InConnectingStates(state) && state != WAIT && p.server then STANDBY
    else CONNECTING
  }

  /** `fault`: nothing in a closed or replaced connection, two branches into `_stop`, and the reconnect. */
  function FaultStep(p: Policy, v: View, f: Flags): View {
    if v.state == CLOSED || v.state == NONE then v
    else if p.lossy && !InConnectingStates(v.state) then StopStep(p, v)
    else if !f.onceReady && !f.queued && ACCEPTING <= v.state <= ACCEPTING_WAIT_CONNECT_MSG_AUTH && !f.replacing
    then StopStep(p, v)
    else Reset(p, v).(state := FaultTarget(p, v.state, f.queued))
  }

  /** The existing connection when a new socket replaces its own. */
  function ReplaceStep(p: Policy, v: View): View {
    if p.lossy then StopStep(p, v) else Reset(p, v).(state := NONE)
  }

  /**
   A broken footer only leads to `fault`. An old message is put, which gives back what its throttlers
   hold for it, and the state stays.
   */
  function Step(p: Policy, v: View, a: Action): View
    requires Enabled(v, a)
  {
    match a
    case Header => v.(state := THROTTLE_MESSAGE)
    case WantMessage(ok) =>
      if p.messages && !ok then v
      else v.(state := THROTTLE_BYTES, taken := v.taken.(messages := v.taken.messages + if p.messages then 1 else 0))
    case WantBytes(ok, len) =>
      if len > 0 && p.bytes && !ok then v.(size := len)
      else v.(size := len, state := THROTTLE_DISPATCH_QUEUE, taken := v.taken.(bytes := v.taken.bytes
          + if p.bytes then len else 0))
    case WantDispatch(ok) =>
      if v.size > 0 && !ok then v
      else v.(state := READ_FRONT, taken := v.taken.(dispatch := v.taken.dispatch + v.size))
    case Advance => v.(state := v.state + 1)
    case Footer(Broken) => v
    case Footer(Stale) => v.(taken := Minus(v.taken, Full(p, v.size).(dispatch := 0)))
    case Footer(Next) => v.(state := OPEN, queued := v.queued + [Full(p, v.size)])
    case Move(next) => v.(state := next)
    case Fault(f) => FaultStep(p, v, f)
    case Stop => StopStep(p, v)
    case Replace => ReplaceStep(p, v)
    case Done(i) => v.(taken := Minus(v.taken, v.queued[i]), queued := v.queued[..i] + v.queued[i + 1..])
  }

  /** The throttles count exactly what the connection holds at its place, plus what its messages carry. */
  ghost predicate Balanced(p: Policy, v: View) {
    v.taken == Plus(Held(p, v.state, v.size), Total(v.queued))
  }

  lemma {:induction false} TotalSplit(a: seq<Reservation>, b: seq<Reservation>)
    ensures Total(a + b) == Plus(Total(a), Total(b))
  {
    if a == [] {
      assert a + b == b;
    } else {
      assert (a + b)[0] == a[0] && (a + b)[1..] == a[1..] + b;
      TotalSplit(a[1..], b);
    }
  }

  lemma {:induction false} TotalRemove(q: seq<Reservation>, i: nat)
    requires i < |q|
    ensures Total(q[..i] + q[i + 1..]) == Minus(Total(q), q[i])
  {
    if i == 0 {
      assert q[..0] + q[1..] == q[1..];
    } else {
      TotalRemove(q[1..], i - 1);
      assert q[..i] + q[i + 1..] == [q[0]] + (q[1..][..i - 1] + q[1..][i..]);
    }
  }

  lemma TotalSnoc(q: seq<Reservation>, r: Reservation)
    ensures Total(q + [r]) == Plus(Total(q), r)
  {
    TotalSplit(q, [r]);
    assert [r][1..] == [];
  }

  lemma StepKeepsBalance(p: Policy, v: View, a: Action)
    requires Balanced(p, v) && Enabled(v, a) && a != Footer(Stale)
    ensures Balanced(p, Step(p, v, a))
  {
    hide Total;
    if a.Footer? && a.outcome.Next? {
      TotalSnoc(v.queued, Full(p, v.size));
    } else if a.Done? {
      TotalRemove(v.queued, a.i);
    }
  }

  ghost predicate CanRun(p: Policy, v: View, run: seq<Action>)
    decreases |run|
  {
    run == [] || (Enabled(v, run[0]) && CanRun(p, Step(p, v, run[0]), run[1..]))
  }

  ghost function After(p: Policy, v: View, run: seq<Action>): View
    requires CanRun(p, v, run)
    decreases |run|
  {
    if run == [] then v else After(p, Step(p, v, run[0]), run[1..])
  }

  /**
   Over every run without an old message: the reservations are balanced, so outside the reading states
   (after any fault, stop or replacement) only the messages handed on hold anything, and the count of a
   throttle never falls below what they carry.
   */
  lemma {:induction false} RunKeepsBalance(p: Policy, v: View, run: seq<Action>)
    ensures Balanced(p, v) && CanRun(p, v, run) && Footer(Stale) !in run ==>
              && Balanced(p, After(p, v, run))
              && (Outside(After(p, v, run).state) ==> After(p, v, run).taken == Total(After(p, v, run).queued))
    decreases |run|
  {
    hide Step, Enabled, Total;
    if run != [] && Balanced(p, v) && CanRun(p, v, run) && Footer(Stale) !in run {
      StepKeepsBalance(p, v, run[0]);
      RunKeepsBalance(p, Step(p, v, run[0]), run[1..]);
    }
  }

  /** A message that is handed on carries all that was reserved for it, and the connection keeps nothing. */
  lemma DispatchCarriesAll(p: Policy, v: View)
    requires Balanced(p, v) && Enabled(v, Footer(Next))
    ensures var t := Step(p, v, Footer(Next));
            && t.taken == v.taken && Held(p, t.state, t.size) == Reservation(0, 0, 0)
            && t.queued == v.queued + [Held(p, v.state, v.size)]
  {
  }

  predicate Leaves(a: Action) {
    a.Fault? || a.Stop? || a.Replace?
  }

  /** The request needs a throttle's grant and does not get it. */
  predicate Refused(p: Policy, v: View, a: Action) {
    match a
    case WantMessage(ok) => p.messages && !ok
    case WantBytes(ok, len) => len > 0 && p.bytes && !ok
    case WantDispatch(ok) => v.size > 0 && !ok
    case _ => false
  }

  /** What the request asks for. */
  function Asked(p: Policy, v: View, a: Action): Reservation {
    match a
    case WantMessage(_) => Reservation(if p.messages then 1 else 0, 0, 0)
    case WantBytes(_, len) => Reservation(0, if p.bytes then len else 0, 0)
    case WantDispatch(_) => Reservation(0, 0, v.size)
    case _ => Reservation(0, 0, 0)
  }

  /**
   A refused request changes neither the state nor a count, so it can be repeated; any other moves on by
   one state, and the counts grow by exactly what it asks for.
   */
  lemma RequestIff(p: Policy, v: View, a: Action)
    requires a.WantMessage? || a.WantBytes? || a.WantDispatch?
    requires Enabled(v, a)
    ensures var t := Step(p, v, a);
            && t.queued == v.queued && t.size == (if a.WantBytes? then a.len else v.size)
            && t.state == (if Refused(p, v, a) then v.state else v.state + 1)
            && t.taken == (if Refused(p, v, a) then v.taken else Plus(v.taken, Asked(p, v, a)))
  {
    match a {
      case WantMessage(_) =>
      case WantBytes(_, _) =>
      case WantDispatch(_) =>
    }
  }

  /**
   Where a fault leads: a lossy connection that is not connecting is closed, and so is an idle one that
   was half accepted; any other reconnects, unless it may wait in standby.
   */
  lemma FaultEnds(p: Policy, v: View, f: Flags)
    ensures var t := Step(p, v, Fault(f));
            var dead := v.state == CLOSED || v.state == NONE;
            var connecting := CONNECTING <= v.state < CONNECTING_READY;
            var halfAccepted := ACCEPTING <= v.state <= ACCEPTING_WAIT_CONNECT_MSG_AUTH
                                && !f.onceReady && !f.queued && !f.replacing;
            && (dead ==> t == v)
            && (!dead ==> t.state == CLOSED || t.state == STANDBY || t.state == CONNECTING)
            && (!dead ==> (t.state == CLOSED <==> (p.lossy && !connecting) || halfAccepted))
            && (!dead && t.state == STANDBY ==>
                  v.state != WAIT && ((p.standby && !f.queued) || (p.server && !connecting)))
            && (!dead && t.state == CONNECTING ==>
                  v.state == WAIT || ((f.queued || !p.standby) && (!p.server || connecting)))
  {
  }

  /**
   Every path through `fault`, `_stop` and a replacement releases exactly what is held, once: afterwards
   only the messages handed on hold anything, and whichever of the three comes next finds nothing more
   to release.
   */
  lemma LeavingReleasesOnce(p: Policy, v: View, a: Action, b: Action)
    requires Balanced(p, v) && Leaves(a) && Enabled(v, a) && Leaves(b)
    ensures var t := Step(p, v, a);
            && t.taken == Minus(v.taken, Held(p, v.state, v.size)) == Total(v.queued)
            && t.queued == v.queued && Outside(t.state)
            && (Enabled(t, b) ==> Step(p, t, b).taken == t.taken)
  {
    hide Total;
  }

  /** The order matters: releasing twice before the state has moved is right only if nothing was held. */
  lemma ResetTwiceIff(p: Policy, v: View, next: nat)
    requires Balanced(p, v) && Outside(next)
    ensures Balanced(p, Reset(p, v).(state := next))
    ensures Balanced(p, Reset(p, Reset(p, v)).(state := next)) <==> Held(p, v.state, v.size) == Reservation(0, 0, 0)
  {
    hide Total;
  }

  /**
   The old-message branch puts the message and stays at the footer, so the next fault, stop or
   replacement puts again: the throttles end short of what the queued messages carry by one message and
   its bytes. The balance survives the branch only when there was nothing to put.
   */
  lemma OldMessageReleasesTwice(p: Policy, v: View, a: Action)
    requires Balanced(p, v) && Enabled(v, Footer(Stale)) && Leaves(a)
    ensures var t := Step(p, v, Footer(Stale));
            && (Balanced(p, t) <==> !p.messages && (!p.bytes || v.size == 0))
            && Enabled(t, a)
            && Step(p, t, a).taken == Minus(Total(v.queued), Full(p, v.size).(dispatch := 0))
  {
    hide Total;
  }

  /** The connection's part in its own form: the fields `reset_recv_state` looks at, and the throttles' counts. */
  class Receiver {
    const policy: Policy
    var state: nat
    var curMsgSize: nat
    var taken: Reservation
    var queued: seq<Reservation>

    ghost function Now(): View
      reads this
    {
      View(state, curMsgSize, taken, queued)
    }

    constructor (policy: Policy)
      ensures this.policy == policy && Now() == View(0, 0, Reservation(0, 0, 0), [])
    {
      this.policy := policy;
      state, curMsgSize, taken, queued := 0, 0, Reservation(0, 0, 0), [];
    }

    /** The throttle states of `process`; a refusal leaves the state, and a timer tries again. */
    method WantMessage(ok: bool)
      requires state == THROTTLE_MESSAGE
      modifies this`state, this`taken
      ensures Now() == Step(policy, old(Now()), Action.WantMessage(ok))
    {
      if policy.messages {
        if !ok {
          return;
        }
        taken := taken.(messages := taken.messages + 1);
      }
      state := THROTTLE_BYTES;
    }

    method WantBytes(ok: bool, len: nat)
      requires state == THROTTLE_BYTES
      modifies this`state, this`curMsgSize, this`taken
      ensures Now() == Step(policy, old(Now()), Action.WantBytes(ok, len))
    {
      curMsgSize := len;
      if curMsgSize != 0 {
        if policy.bytes {
          if !ok {
            return;
          }
          taken := taken.(bytes := taken.bytes + curMsgSize);
        }
      }
      state := THROTTLE_DISPATCH_QUEUE;
    }

    method WantDispatch(ok: bool)
      requires state == THROTTLE_DISPATCH_QUEUE
      modifies this`state, this`taken
      ensures Now() == Step(policy, old(Now()), Action.WantDispatch(ok))
    {
      if curMsgSize != 0 {
        if !ok {
          return;
        }
        taken := taken.(dispatch := taken.dispatch + curMsgSize);
      }
      state := READ_FRONT;
    }

    /** The releases of `reset_recv_state`; the state is left to the callers. */
    method ResetRecvState()
      modifies this`taken
      ensures Now() == Reset(policy, old(Now()))
    {
      if state > THROTTLE_MESSAGE && state <= READ_FOOTER_AND_DISPATCH && policy.messages {
        taken := taken.(messages := taken.messages - 1);
      }
      if state > THROTTLE_BYTES && state <= READ_FOOTER_AND_DISPATCH {
        if policy.bytes {
          taken := taken.(bytes := taken.bytes - curMsgSize);
        }
      }
      if state > THROTTLE_DISPATCH_QUEUE && state <= READ_FOOTER_AND_DISPATCH {
        taken := taken.(dispatch := taken.dispatch - curMsgSize);
      }
    }

    /** `_stop`. */
    method Stop()
      modifies this`state, this`taken
      ensures Now() == Step(policy, old(Now()), Action.Stop)
      ensures old(Balanced(policy, Now())) ==> taken == Total(queued)
    {
      if state == CLOSED {
        return;
      }
      ResetRecvState();
      state := CLOSED;
    }

    /** `fault`. */
    method Fault(flags: Flags)
      modifies this`state, this`taken
      ensures Now() == Step(policy, old(Now()), Action.Fault(flags))
      ensures old(Balanced(policy, Now())) ==> taken == Total(queued)
    {
      if state == CLOSED || state == NONE {
        return;
      }
      if policy.lossy && !InConnectingStates(state) {
        Stop();
        return;
      }
      if !flags.onceReady && !flags.queued && ACCEPTING <= state <= ACCEPTING_WAIT_CONNECT_MSG_AUTH
         && !flags.replacing {
        Stop();
        return;
      }
      ResetRecvState();
      if policy.standby && !flags.queued && state != WAIT {
        state := STANDBY;
        return;
      }
      if !InConnectingStates(state) && state != WAIT {
        state := if policy.server then STANDBY else CONNECTING;
      } else {
        state := CONNECTING;
      }
    }

    /** This connection is the existing one that a new socket replaces. */
    method Replace()
      requires state != CLOSED
      modifies this`state, this`taken
      ensures Now() == Step(policy, old(Now()), Action.Replace)
      ensures old(Balanced(policy, Now())) ==> taken == Total(queued)
    {
      if policy.lossy {
        Stop();
      } else {
        ResetRecvState();
        state := NONE;
      }
    }

    /** The end of the footer state: the message takes the reservations with it, unless it is an old one. */
    method DispatchMessage(stale: bool)
      requires state == READ_FOOTER_AND_DISPATCH
      modifies this`state, this`taken, this`queued
      ensures Now() == Step(policy, old(Now()), Footer(if stale then Stale else Next))
    {
      var messageThrottler, byteThrottler, dispatchSize := policy.messages, policy.bytes, curMsgSize;
      if stale {
        if messageThrottler {
          taken := taken.(messages := taken.messages - 1);
        }
        if byteThrottler {
          taken := taken.(bytes := taken.bytes - curMsgSize);
        }
        return;
      }
      state := OPEN;
      queued := queued + [Reservation(if messageThrottler then 1 else 0, if byteThrottler then curMsgSize else 0,
                                      dispatchSize)];
    }
  }
}
