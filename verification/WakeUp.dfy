/**
 The cross-thread queue of the event loop and its wake-up pipe: producers and the loop interleaved
 (hardware_async/Event.cc 43-54, 317-333, 361-371, 397-440, 446-460).
 */
module WakeUp {
  import opened Wrappers

  /** One producer thread inside `dispatch_event_external`. */
  datatype Producer =
    | Away
    | Pushed        // holds the lock; the event is queued, the counter is next
    | AboutToWrite  // saw the counter at 0; `wakeup` is next

  /** The loop thread inside `process_events`. */
  datatype Phase =
    | Top                       // about to look at the counter
    | Waiting(blocking: bool)   // in `event_wait`
    | Draining                  // the notify handler is reading the pipe
    | Working                   // other file events and timers; their callbacks run here
    | Swapping                  // saw a positive counter; the lock is next
    | Running                   // the callbacks of the swapped queue

  /** pollers: some are registered; sleeps: the driver needs to be woken up. */
  datatype Config = Config(pollers: bool, sleeps: bool, pipe: nat)

  datatype State = State(
    queue: seq<nat>,          // external_events
    num: nat,                 // external_num_events
    lock: Option<nat>,        // the producer that holds external_lock
    bytes: nat,               // in the notify pipe
    phase: Phase,
    cur: seq<nat>,            // cur_process
    producers: seq<Producer>,
    pushed: seq<nat>,         // every event ever queued, in order
    done: seq<nat>)           // every callback run, in order

  datatype Action =
    | Push(i: nat, e: nat)
    | Count(i: nat)
    | Write(i: nat)
    | Look
    | Return(fired: bool)
    | Read
    | InThread(e: nat)
    | Check
    | Swap
    | RunOne

  predicate Enabled(s: State, a: Action) {
    match a
    case Push(i, e) => i < |s.producers| && s.producers[i].Away? && s.lock.None?
    case Count(i) => i < |s.producers| && s.producers[i].Pushed? && s.lock == Some(i)
    case Write(i) => i < |s.producers| && s.producers[i].AboutToWrite?
    case Look => s.phase.Top?
    case Return(fired) => s.phase.Waiting? && (fired ==> s.bytes > 0)
    case Read => s.phase.Draining?
    case InThread(e) => (s.phase.Working? || s.phase.Running?) && s.lock.None?
    case Check => s.phase.Working?
    case Swap => s.phase.Swapping? && s.lock.None?
    case RunOne => s.phase.Running?
  }

  function Step(c: Config, s: State, a: Action): State
    requires Enabled(s, a)
  {
    match a
    case Push(i, e) =>
      s.(queue := s.queue + [e], pushed := s.pushed + [e], lock := Some(i), producers := s.producers[i := Pushed])
    case Count(i) =>
      var wake := s.num == 0 && !c.pollers && c.sleeps;
      s.(num := s.num + 1, lock := None, producers := s.producers[i := if wake then AboutToWrite else Away])
    case Write(i) =>
      // a full pipe refuses the byte, and then it holds others
      s.(bytes := if s.bytes < c.pipe then s.bytes + 1 else s.bytes, producers := s.producers[i := Away])
    case Look => s.(phase := Waiting(!c.pollers && s.num == 0))
    case Return(fired) => s.(phase := if fired then Draining else Working)
    case Read =>
      if s.bytes == 0 then s.(phase := Working) else s.(bytes := if s.bytes > 256 then s.bytes - 256 else 0)
    case InThread(e) => s.(queue := s.queue + [e], pushed := s.pushed + [e], num := s.num + 1)
    case Check => s.(phase := if s.num > 0 then Swapping else Top)
    case Swap => s.(phase := Running, cur := s.queue, queue := [], num := 0)
    case RunOne =>
      if s.cur == [] then s.(phase := Top) else s.(done := s.done + [s.cur[0]], cur := s.cur[1..])
  }

  ghost predicate Init(s: State) {
    && s == State([], 0, None, 0, Top, [], s.producers, [], [])
    && forall i | 0 <= i < |s.producers| :: s.producers[i].Away?
  }

  /** Outside the lock the counter is the length of the queue; inside it is one behind. */
  ghost predicate Counted(s: State) {
    && (s.lock.None? ==> s.num == |s.queue| && forall i | 0 <= i < |s.producers| :: !s.producers[i].Pushed?)
    && (s.lock.Some? ==>
          && s.lock.value < |s.producers| && s.num + 1 == |s.queue|
          && forall i | 0 <= i < |s.producers| :: s.producers[i].Pushed? <==> i == s.lock.value)
  }

  /** Run, then being run, then queued: that is everything pushed, in order. */
  ghost predicate Fifo(s: State) {
    s.done + s.cur + s.queue == s.pushed && (!s.phase.Running? ==> s.cur == [])
  }

  /** The loop may be asleep and nothing but the pipe will end that. */
  ghost predicate Blocked(c: Config, s: State) {
    s.phase == Waiting(true) && c.sleeps
  }

  /** A byte is in the pipe, or a producer is on its way to write one. */
  ghost predicate Waking(s: State) {
    s.bytes > 0 || (s.lock.Some? && s.num == 0) || exists i | 0 <= i < |s.producers| :: s.producers[i].AboutToWrite?
  }

  ghost predicate Inv(c: Config, s: State) {
    && Counted(s) && Fifo(s) && (s.phase == Waiting(true) ==> !c.pollers)
    && (Blocked(c, s) && s.queue != [] ==> Waking(s))
  }

  lemma StepKeepsCounted(c: Config, s: State, a: Action)
    requires Counted(s) && Enabled(s, a)
    ensures Counted(Step(c, s, a))
  {
  }

  lemma StepKeepsFifo(c: Config, s: State, a: Action)
    requires Fifo(s) && Enabled(s, a)
    ensures Fifo(Step(c, s, a))
  {
    var t := Step(c, s, a);
    match a
    case Push(i, e) => assert s.done + s.cur + (s.queue + [e]) == s.done + s.cur + s.queue + [e];
    case InThread(e) => assert s.done + s.cur + (s.queue + [e]) == s.done + s.cur + s.queue + [e];
    case Swap => assert s.done + [] + s.queue == s.done + s.queue + [];
    case RunOne =>
      if s.cur != [] {
        assert s.cur == [s.cur[0]] + s.cur[1..];
        assert s.done + s.cur == s.done + [s.cur[0]] + s.cur[1..];
      }
    case _ =>
  }

  lemma StepKeepsWaking(c: Config, s: State, a: Action)
    requires c.pipe > 0 && Inv(c, s) && Enabled(s, a)
    ensures var t := Step(c, s, a); Blocked(c, t) && t.queue != [] ==> Waking(t)
  {
    hide Fifo;
    var t := Step(c, s, a);
    if Blocked(c, t) && t.queue != [] && a.Count? && s.num == 0 {
      assert t.producers[a.i].AboutToWrite?;
    } else if i :| 0 <= i < |s.producers| && s.producers[i].AboutToWrite? && !(a.Write? && a.i == i) {
      assert t.producers[i].AboutToWrite?;
    }
  }

  lemma StepKeepsInv(c: Config, s: State, a: Action)
    requires c.pipe > 0 && Inv(c, s) && Enabled(s, a)
    ensures Inv(c, Step(c, s, a))
  {
    hide Counted, Fifo, Waking;
    StepKeepsCounted(c, s, a);
    StepKeepsFifo(c, s, a);
    StepKeepsWaking(c, s, a);
  }

  ghost predicate CanRun(c: Config, s: State, run: seq<Action>)
    decreases |run|
  {
    run == [] || (Enabled(s, run[0]) && CanRun(c, Step(c, s, run[0]), run[1..]))
  }

  ghost function After(c: Config, s: State, run: seq<Action>): State
    requires CanRun(c, s, run)
    decreases |run|
  {
    if run == [] then s else After(c, Step(c, s, run[0]), run[1..])
  }

  lemma {:induction false} RunKeepsInv(c: Config, s: State, run: seq<Action>)
    requires c.pipe > 0 && Inv(c, s) && CanRun(c, s, run)
    ensures Inv(c, After(c, s, run))
    decreases |run|
  {
    hide Inv, Step, Enabled;
    if run != [] {
      StepKeepsInv(c, s, run[0]);
      RunKeepsInv(c, Step(c, s, run[0]), run[1..]);
    }
  }

  /**
   In every interleaving: the counter is the queue's length outside the lock; the callbacks run are a
   prefix of the events queued, in that order, so each runs at most once; and when the loop sleeps
   with an empty pipe and no producer is inside the call, every event ever queued has been run.
   */
  lemma NoLostWakeUp(c: Config, s0: State, run: seq<Action>)
    requires c.pipe > 0 && Init(s0) && CanRun(c, s0, run)
    ensures var s := After(c, s0, run);
            && (s.lock.None? ==> s.num == |s.queue|)
            && s.done <= s.pushed && s.done + s.cur + s.queue == s.pushed
            && (Blocked(c, s) && s.queue != [] ==> Waking(s))
            && (Blocked(c, s) && s.bytes == 0 && (forall i | 0 <= i < |s.producers| :: s.producers[i].Away?) ==>
                s.done == s.pushed)
  {
    assert Inv(c, s0);
    RunKeepsInv(c, s0, run);
    var s := After(c, s0, run);
    assert s.done + s.cur + s.queue == s.done + (s.cur + s.queue);
    assert s.lock.Some? ==> s.producers[s.lock.value].Pushed?;
    if Blocked(c, s) && s.bytes == 0 && forall i | 0 <= i < |s.producers| :: s.producers[i].Away? {
      assert s.lock.None?;
      assert !Waking(s);
      assert s.cur + s.queue == [];
    }
  }

  /** A producer writes a byte exactly if its event found the queue empty and the loop can sleep. */
  lemma WakesOnce(c: Config, s: State, i: nat)
    requires Inv(c, s) && Enabled(s, Count(i))
    ensures Step(c, s, Count(i)).producers[i].AboutToWrite? <==> |s.queue| == 1 && !c.pollers && c.sleeps
  {
  }

  // ---------------------------------------------------------------- progress

  /** What the loop does by itself: not the producers' steps, and no callback that queues something. */
  predicate OwnStep(a: Action) {
    a.Look? || a.Return? || a.Read? || a.Check? || a.Swap? || a.RunOne?
  }

  /** How many steps of its own the loop takes at most until it has run everything queued. */
  function StepsLeft(s: State): nat {
    var round := |s.queue| + s.bytes + 5;
    if s.cur == [] && s.queue == [] then 0
    else match s.phase
      case Top => round
      case Waiting(_) => round - 1
      case Draining => round - 2
      case Working => |s.queue| + 2
      case Swapping => |s.queue| + 1
      case Running => |s.cur| + if s.queue == [] then 0 else round + 1
  }

  lemma StepsShrink(c: Config, s: State, a: Action)
    requires Counted(s) && (s.cur != [] ==> s.phase.Running?) && s.lock.None? && Enabled(s, a) && OwnStep(a)
    ensures var t := Step(c, s, a);
            && t.lock.None? && t.pushed == s.pushed
            && if StepsLeft(s) == 0 then StepsLeft(t) == 0 else StepsLeft(t) < StepsLeft(s)
  {
  }

  /**
   However the waits end and however much the pipe holds: once the loop has taken that many steps of its
   own, with nobody queueing anything new, every event ever queued has been run, in order.
   */
  lemma {:induction false} LoopRunsEverything(c: Config, s: State, run: seq<Action>)
    requires c.pipe > 0 && Inv(c, s) && s.lock.None? && CanRun(c, s, run)
    requires (forall a | a in run :: OwnStep(a)) && StepsLeft(s) <= |run|
    ensures After(c, s, run).done == s.pushed == After(c, s, run).pushed
    decreases |run|
  {
    hide Counted, Step, Enabled, OwnStep, Waking;
    if run == [] {
      NothingWaits(s);
    } else {
      StepsShrink(c, s, run[0]);
      StepKeepsInv(c, s, run[0]);
      LoopRunsEverything(c, Step(c, s, run[0]), run[1..]);
    }
  }

  lemma NothingWaits(s: State)
    requires Fifo(s) && StepsLeft(s) == 0
    ensures s.done == s.pushed
  {
    assert s.done + s.cur + s.queue == s.done;
  }

  /**
   And it can always take the next one: as long as something waits and no producer is inside the call,
   the loop has a step that does not need its wait to time out.
   */
  lemma LoopCanGoOn(c: Config, s: State) returns (a: Action)
    requires Inv(c, s) && s.done != s.pushed
    requires s.lock.None? && forall i | 0 <= i < |s.producers| :: !s.producers[i].AboutToWrite?
    ensures Enabled(s, a) && OwnStep(a) && (Blocked(c, s) ==> a == Return(true))
  {
    assert s.cur + s.queue != [] by {
      assert s.done + s.cur + s.queue == s.done + (s.cur + s.queue);
    }
    a := match s.phase
      case Top => Look
      case Waiting(_) => Return(s.bytes > 0)
      case Draining => Read
      case Working => Check
      case Swapping => Swap
      case Running => RunOne;
  }

  /** And it sleeps exactly if nothing waits: with something queued, or with pollers, the wait only looks. */
  lemma SleepsOnlyWhenIdle(c: Config, s: State)
    requires Inv(c, s) && s.phase.Top? && s.lock.None?
    ensures Step(c, s, Look).phase == Waiting(s.done == s.pushed && !c.pollers)
  {
    assert s.done + s.cur + s.queue == s.done + s.queue;
    assert s.queue == [] ==> s.done + s.queue == s.done;
    assert |s.done + s.queue| == |s.done| + |s.queue|;
  }

  /** The queue in its own form. `written` counts the bytes this object has put into the pipe. */
  class ExternalEvents {
    const pollers: bool
    const needWakeup: bool
    var externalEvents: seq<nat>
    var externalNumEvents: nat
    var written: nat

    ghost predicate Valid()
      reads this
    {
      externalNumEvents == |externalEvents|
    }

    constructor (pollers: bool, needWakeup: bool)
      ensures Valid() && externalEvents == [] && written == 0 && this.pollers == pollers
              && this.needWakeup == needWakeup
    {
      this.pollers, this.needWakeup := pollers, needWakeup;
      externalEvents, externalNumEvents, written := [], 0, 0;
    }

    /** One byte, and only for the event that finds the queue empty, from another thread, with a loop that can sleep. */
    method DispatchEventExternal(e: nat, inThread: bool)
      requires Valid()
      modifies this
      ensures Valid() && externalEvents == old(externalEvents) + [e]
      ensures written == old(written) + if !inThread && old(externalEvents) == [] && !pollers
              && needWakeup then 1 else 0
    {
      externalEvents := externalEvents + [e];
      var wake := externalNumEvents == 0;
      externalNumEvents := externalNumEvents + 1;
      if !inThread && wake {
        Wakeup();
      }
    }

    method Wakeup()
      modifies this`written
      ensures written == old(written) + if pollers || !needWakeup then 0 else 1
    {
      if pollers || !needWakeup {
        return;
      }
      written := written + 1;
    }

    /**
     The external part of `process_events`: what was queued runs, in order; what its callbacks queue
     (`queues[k]` by the k-th of them, from the loop's own thread) waits for the next pass, and the
     pipe is left alone.
     */
    method ProcessExternal(queues: seq<seq<nat>>) returns (run: seq<nat>)
      requires Valid()
      modifies this`externalEvents, this`externalNumEvents
      ensures Valid() && run == old(externalEvents)
      ensures externalEvents == Joined(queues, |run|)
    {
      run := [];
      assert Joined(queues, 0) == [];
      if externalNumEvents != 0 {
        var curProcess := externalEvents;
        externalEvents := [];
        externalNumEvents := 0;
        while curProcess != []
          invariant Valid() && run + curProcess == old(externalEvents)
          invariant externalEvents == Joined(queues, |run|)
          decreases |curProcess|
        {
          var e := curProcess[0];
          if |run| < |queues| {
            externalEvents := externalEvents + queues[|run|];
            externalNumEvents := externalNumEvents + |queues[|run|]|;
          }
          run := run + [e];
          curProcess := curProcess[1..];
        }
      }
    }
  }

  /** The first n lists, one after the other. */
  function Joined(queues: seq<seq<nat>>, n: nat): seq<nat> {
    if n == 0 then []
    else if n > |queues| then Joined(queues, n - 1)
    else Joined(queues, n - 1) + queues[n - 1]
  }
}
