/**
 Workers are woken in the order in which they were listed: the dispatcher's list is a queue over every run
 (hardware_async/rdma/RDMAStack.h 103-110, RDMAStack.cc 300-314).
 */
module SchedulerOrder {
  import opened Bytes
  import opened Chunks
  import opened Scheduler
  import opened SchedulerProgress

  /** The worker whose handler is queued between two states, if there is one. */
  ghost function WokenAt(s: State, t: State): seq<nat> {
    if v: nat :| v < |s.notified| && v < |t.notified| && t.notified[v] > s.notified[v] then [v] else []
  }

  /** The worker that joins the list between two states, if there is one. */
  ghost function ListedAt(s: State, t: State): seq<nat> {
    if w :| w in t.pw && w !in s.pw then [w] else []
  }

  ghost function WokenBy(s: State, run: seq<Action>, size: nat): seq<nat>
    requires size > 0 && CanRun(s, run, size)
    decreases |run|
  {
    if run == [] then [] else WokenAt(s, Step(s, run[0], size)) + WokenBy(Step(s, run[0], size), run[1..], size)
  }

  ghost function ListedBy(s: State, run: seq<Action>, size: nat): seq<nat>
    requires size > 0 && CanRun(s, run, size)
    decreases |run|
  {
    if run == [] then [] else ListedAt(s, Step(s, run[0], size)) + ListedBy(Step(s, run[0], size), run[1..], size)
  }

  /** Nobody waits twice. */
  ghost predicate Once(pw: seq<nat>) {
    forall i, j | 0 <= i < j < |pw| :: pw[i] != pw[j]
  }

  /** A step that wakes nobody and lists at most w. */
  lemma ListsAtMost(s: State, t: State, w: nat)
    requires |t.notified| == |s.notified| && forall v | 0 <= v < |s.notified| :: t.notified[v] <= s.notified[v]
    requires t.pw == s.pw || t.pw == Enlist(s.pw, w)
    requires Once(s.pw)
    ensures s.pw + ListedAt(s, t) == WokenAt(s, t) + t.pw && Once(t.pw)
  {
    assert WokenAt(s, t) == [];
    if w !in s.pw && t.pw == s.pw + [w] {
      assert w in t.pw;
      assert ListedAt(s, t) == [w];
    } else {
      assert ListedAt(s, t) == [];
    }
  }

  lemma WakesFirst(s: State, s1: State)
    requires s1.pw == s.pw && s1.notified == s.notified && Once(s.pw)
    requires forall i | 0 <= i < |s.pw| :: s.pw[i] < |s.notified|
    ensures s.pw + ListedAt(s, Wake(s1)) == WokenAt(s, Wake(s1)) + Wake(s1).pw && Once(Wake(s1).pw)
  {
    var t := Wake(s1);
    assert ListedAt(s, t) == [];
    if s.pw != [] {
      assert t.notified[s.pw[0]] > s.notified[s.pw[0]];
      assert WokenAt(s, t) == [s.pw[0]];
    } else {
      assert WokenAt(s, t) == [];
    }
  }

  lemma SubmitLists(s: State, o: nat, ok: bool, size: nat)
    requires Shape(s) && o < |s.socks| && size > 0
    ensures var t := Submit(s, o, ok, size);
            && t.notified == s.notified && t.status == s.status
            && (t.pw == s.pw || t.pw == Enlist(s.pw, s.socks[o].owner))
  {
    hide Submit, Enlist;
    SubmitFacts(s, o, ok, size);
  }

  /** In one step the list gives up its head or takes one more at its end, and who is woken is the head. */
  lemma StepKeepsOrder(s: State, a: Action, size: nat)
    requires size > 0 && Shape(s) && Enabled(s, a) && Once(s.pw)
    ensures var t := Step(s, a, size);
            s.pw + ListedAt(s, t) == WokenAt(s, t) + t.pw && Once(t.pw)
  {
    hide Submit, Enlist, ListedAt, WokenAt, Once, Wake, Without, Release;
    var t := Step(s, a, size);
    match a
    case Send(o, bytes, ok) =>
      SubmitLists(s.(socks := s.socks[o := s.socks[o].(unsent := s.socks[o].unsent + bytes)]), o, ok, size);
      ListsAtMost(s, t, s.socks[o].owner);
    case Handshake(o, ok) =>
      SubmitLists(s.(socks := s.socks[o := s.socks[o].(connected := true)]), o, ok, size);
      ListsAtMost(s, t, s.socks[o].owner);
    case Notify => WakesFirst(s, s.(owes := false));
    case Finish(w) => WakesFirst(s, s.(status := s.status[w := Idle]));
    case Hand(w, ok) => HandLists(s, w, ok, size);
    case Push(w) => ListsAtMost(s, t, w);
    case _ => ListsAtMost(s, t, 0);
  }

  lemma HandLists(s: State, w: nat, ok: bool, size: nat)
    requires size > 0 && Shape(s) && Enabled(s, Hand(w, ok)) && Once(s.pw)
    ensures var t := Step(s, Hand(w, ok), size);
            s.pw + ListedAt(s, t) == WokenAt(s, t) + t.pw && Once(t.pw)
  {
    hide Submit, Enlist, ListedAt, WokenAt, Once;
    var o := s.status[w].o;
    SubmitLists(s, o, ok, size);
    ListsAtMost(s, Step(s, Hand(w, ok), size), s.socks[o].owner);
  }

  /**
   Over every run the workers that were listed, first those waiting already, are the workers that were
   woken, in the same order, followed by those that still wait; and nobody waits twice.
   */
  lemma {:induction false} WokenInOrder(s: State, run: seq<Action>, total: nat, size: nat)
    requires size > 0 && Inv(s, total) && CanRun(s, run, size) && Once(s.pw)
    ensures s.pw + ListedBy(s, run, size) == WokenBy(s, run, size) + After(s, run, size).pw
    ensures Once(After(s, run, size).pw)
    decreases |run|
  {
    hide Inv, Step, Enabled, ListedAt, WokenAt, Once;
    if run != [] {
      var t := Step(s, run[0], size);
      StepKeepsOrder(s, run[0], size);
      StepKeepsInv(s, run[0], total, size);
      WokenInOrder(t, run[1..], total, size);
      assert s.pw + ListedBy(s, run, size) == s.pw + ListedAt(s, t) + ListedBy(t, run[1..], size);
      assert WokenBy(s, run, size) + After(s, run, size).pw
          == WokenAt(s, t) + (WokenBy(t, run[1..], size) + After(t, run[1..], size).pw);
    }
  }
}
