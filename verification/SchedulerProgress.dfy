/**
 Runs of the scheduler: no sender is stranded, and left to themselves the workers and the dispatcher
 come to rest with everything sent (hardware_async/rdma/RDMAStack.cc 300-314, 416-426, 503-546).
 */
module SchedulerProgress {
  import opened Bytes
  import opened Chunks
  import opened Scheduler

  ghost predicate CanRun(s: State, run: seq<Action>, size: nat)
    requires size > 0
    decreases |run|
  {
    run == [] || (Shape(s) && Enabled(s, run[0]) && CanRun(Step(s, run[0], size), run[1..], size))
  }

  ghost function After(s: State, run: seq<Action>, size: nat): State
    requires size > 0 && CanRun(s, run, size)
    decreases |run|
  {
    if run == [] then s else After(Step(s, run[0], size), run[1..], size)
  }

  /** Nothing has happened yet: `total` free chunks, idle workers, unconnected sockets. */
  ghost predicate Init(s: State, total: nat) {
    && Shape(s) && s.free == total && s.posted == s.leaked == 0 && !s.owes && s.pw == []
    && (forall w | 0 <= w < |s.status| :: s.status[w].Idle? && s.notified[w] == 0 && s.lists[w] == [])
    && (forall o | 0 <= o < |s.socks| :: s.socks[o] == Sock(s.socks[o].owner, 0, false, false, false))
  }

  lemma {:induction false} RunKeepsInv(s: State, run: seq<Action>, total: nat, size: nat)
    requires size > 0 && Inv(s, total) && CanRun(s, run, size)
    ensures Inv(After(s, run, size), total)
    decreases |run|
  {
    hide Inv, Step, Enabled;
    if run != [] {
      StepKeepsInv(s, run[0], total, size);
      RunKeepsInv(Step(s, run[0], size), run[1..], total, size);
    }
  }

  ghost predicate Usable(s: State, o: nat) {
    o < |s.socks| && s.socks[o].connected && !s.socks[o].error && s.socks[o].unsent > 0
  }

  /**
   After any run: no chunk is lost track of, and a usable socket with unsent bytes is with its worker
   exactly once, and that worker is at it, or notified, or waits in the dispatcher's list; while it
   waits, a completion, a notification or another worker is under way (unless failed posts have
   leaked the whole pool).
   */
  lemma NoStrandedSender(s0: State, run: seq<Action>, total: nat, size: nat, o: nat)
    requires size > 0 && Init(s0, total) && CanRun(s0, run, size)
    ensures var s := After(s0, run, size);
            && Shape(s) && s.free + s.posted + s.leaked == total
            && (Usable(s, o) ==>
                  var w := s.socks[o].owner;
                  && Held(s, w, o) == 1
                  && (forall v | 0 <= v < |s.status| && v != w :: Held(s, v, o) == 0)
                  && (w in s.pw || s.notified[w] > 0 || s.status[w].Looping? || s.status[w].InHand?)
                  && (w in s.pw && s.leaked < total ==> Waking(s)))
  {
    InitInv(s0, total);
    RunKeepsInv(s0, run, total, size);
    var s := After(s0, run, size);
    if Usable(s, o) {
      var w := s.socks[o].owner;
      assert Held(s, w, o) == 1;
    }
  }

  lemma InitInv(s: State, total: nat)
    requires Init(s, total)
    ensures Inv(s, total)
  {
  }

  /** A step of the workers or the dispatcher, with no help from outside and no failing post. */
  predicate Internal(a: Action) {
    a.Complete? || a.Notify? || a.Start? || a.Loop? || (a.Hand? && a.ok) || a.Push? || a.Finish?
  }

  ghost predicate Quiet(s: State)
    requires Shape(s)
  {
    s.posted == 0 && !s.owes && forall w | 0 <= w < |s.status| :: s.status[w].Idle? && s.notified[w] == 0
  }

  /** At rest means: no internal step can be taken. */
  lemma QuietIffStuck(s: State)
    requires Shape(s)
    ensures Quiet(s) <==> forall a | Internal(a) :: !Enabled(s, a)
  {
    if !Quiet(s) {
      if s.owes {
        assert Enabled(s, Notify);
      } else if s.posted > 0 {
        assert Enabled(s, Complete(1));
      } else {
        var w :| 0 <= w < |s.status| && !(s.status[w].Idle? && s.notified[w] == 0);
        var a := match s.status[w]
                 case Idle => Start(w)
                 case Looping => Loop(w)
                 case InHand(o) => Hand(w, true)
                 case Retry(o) => Push(w)
                 case Notifying => Finish(w);
        assert Internal(a) && Enabled(s, a);
      }
    }
  }

  /** At rest, every usable socket has sent all it has. */
  lemma QuietMeansSent(s: State, total: nat, o: nat)
    requires Inv(s, total) && s.leaked < total && Quiet(s)
    ensures !Usable(s, o)
  {
    assert !Waking(s);
    assert s.pw == [];
    assert forall w | 0 <= w < |s.status| :: s.lists[w] == [];
    if o < |s.socks| {
      assert Held(s, s.socks[o].owner, o) == 0;
    }
  }

  // ---------- a measure that every internal step decreases ----------

  function Sum(s: seq<nat>): nat {
    if s == [] then 0 else s[0] + Sum(s[1..])
  }

  lemma {:induction false} SumUpdate(s: seq<nat>, i: nat, v: nat)
    requires i < |s|
    ensures s[i] <= Sum(s) && Sum(s[i := v]) == Sum(s) - s[i] + v
  {
    if i == 0 {
      assert s[0 := v][1..] == s[1..];
    } else {
      SumUpdate(s[1..], i - 1, v);
      assert s[i := v][1..] == s[1..][i - 1 := v];
    }
  }

  function Unsent(socks: seq<Sock>): seq<nat> {
    seq(|socks|, i requires 0 <= i < |socks| => socks[i].unsent)
  }

  function Pending(socks: seq<Sock>): seq<nat> {
    seq(|socks|, i requires 0 <= i < |socks| => if socks[i].pending then 1 else 0)
  }

  /** Wake-ups under way inside the workers. */
  function Running(status: seq<Status>): seq<nat> {
    seq(|status|, i requires 0 <= i < |status| => if status[i].Idle? || status[i].Retry? then 0 else 1)
  }

  function Retrying(status: seq<Status>): seq<nat> {
    seq(|status|, i requires 0 <= i < |status| => if status[i].Retry? then 2 else 0)
  }

  function Rank(status: seq<Status>): seq<nat> {
    seq(|status|, i requires 0 <= i < |status| => match status[i]
      case Looping => 2
      case InHand(o) => 1
      case Notifying => 1
      case _ => 0)
  }

  datatype Measure = Measure(unsent: nat, posted: nat, pending: nat, tokens: nat, waiting: nat, rank: nat)

  function Of(s: State): Measure {
    Measure(
      Sum(Unsent(s.socks)), s.posted, Sum(Pending(s.socks)),
      (if s.owes then 1 else 0) + Sum(s.notified) + Sum(Running(s.status)),
      |s.pw| + Sum(Retrying(s.status)),
      3 * Sum(s.notified) + Sum(Rank(s.status)))
  }

  predicate Less(a: Measure, b: Measure) {
    || a.unsent < b.unsent
    || (a.unsent == b.unsent && a.posted < b.posted)
    || (a.unsent == b.unsent && a.posted == b.posted && a.pending < b.pending)
    || (a.unsent == b.unsent && a.posted == b.posted && a.pending == b.pending && a.tokens < b.tokens)
    || (a.unsent == b.unsent && a.posted == b.posted && a.pending == b.pending && a.tokens == b.tokens
        && a.waiting < b.waiting)
    || (a.unsent == b.unsent && a.posted == b.posted && a.pending == b.pending && a.tokens == b.tokens
        && a.waiting == b.waiting
        && a.rank < b.rank)
  }

  lemma StatusUpdate(status: seq<Status>, w: nat, x: Status)
    requires w < |status|
    ensures var t := status[w := x];
            && Sum(Running(t)) == Sum(Running(status)) - Running(status)[w] + Running(t)[w]
                && Running(status)[w] <= Sum(Running(status))
            && Sum(Retrying(t)) == Sum(Retrying(status)) - Retrying(status)[w] + Retrying(t)[w]
                && Retrying(status)[w] <= Sum(Retrying(status))
            && Sum(Rank(t)) == Sum(Rank(status)) - Rank(status)[w] + Rank(t)[w] && Rank(status)[w] <= Sum(Rank(status))
  {
    var t := status[w := x];
    SumUpdate(Running(status), w, Running(t)[w]);
    assert Running(status)[w := Running(t)[w]] == Running(t);
    SumUpdate(Retrying(status), w, Retrying(t)[w]);
    assert Retrying(status)[w := Retrying(t)[w]] == Retrying(t);
    SumUpdate(Rank(status), w, Rank(t)[w]);
    assert Rank(status)[w := Rank(t)[w]] == Rank(t);
  }

  lemma SockUpdate(socks: seq<Sock>, o: nat, k: Sock)
    requires o < |socks|
    ensures var t := socks[o := k];
            && Sum(Unsent(t)) == Sum(Unsent(socks)) - socks[o].unsent + k.unsent
                && socks[o].unsent <= Sum(Unsent(socks))
            && Sum(Pending(t)) == Sum(Pending(socks)) - Pending(socks)[o] + (if k.pending then 1 else 0)
            && Pending(socks)[o] <= Sum(Pending(socks))
  {
    var t := socks[o := k];
    SumUpdate(Unsent(socks), o, k.unsent);
    assert Unsent(socks)[o := k.unsent] == Unsent(t);
    SumUpdate(Pending(socks), o, Pending(t)[o]);
    assert Pending(socks)[o := Pending(t)[o]] == Pending(t);
  }

  lemma WakeShrinks(s: State)
    requires Shape(s)
    ensures var t := Wake(s);
            && t.socks == s.socks && t.posted == s.posted && t.owes == s.owes && t.status == s.status
            && (s.pw == [] ==> t == s)
            && (s.pw != [] ==> |t.pw| == |s.pw| - 1 && Sum(t.notified) == Sum(s.notified) + 1)
  {
    if s.pw != [] {
      SumUpdate(s.notified, s.pw[0], s.notified[s.pw[0]] + 1);
    }
  }

  lemma LoopShrinks(s: State, w: nat, size: nat)
    requires size > 0 && Shape(s) && Enabled(s, Loop(w))
    ensures Less(Of(Step(s, Loop(w), size)), Of(s))
  {
    hide Sum, Running, Retrying, Rank;
    var x := if s.lists[w] == [] then Notifying else InHand(s.lists[w][0]);
    StatusUpdate(s.status, w, x);
    StatusValues(s.status, w, x);
  }

  lemma StatusValues(status: seq<Status>, w: nat, x: Status)
    requires w < |status|
    ensures var t := status[w := x];
            && Running(t)[w] == (if x.Idle? || x.Retry? then 0 else 1)
            && Running(status)[w] == (if status[w].Idle? || status[w].Retry? then 0 else 1)
            && Retrying(t)[w] == (if x.Retry? then 2 else 0)
            && Retrying(status)[w] == (if status[w].Retry? then 2 else 0)
            && Rank(t)[w] == (if x.Looping? then 2 else if x.InHand? || x.Notifying? then 1 else 0)
            && Rank(status)[w] == (if status[w].Looping? then 2 else if status[w].InHand?
                || status[w].Notifying? then 1 else 0)
  {
  }

  lemma StartShrinks(s: State, w: nat, size: nat)
    requires size > 0 && Shape(s) && Enabled(s, Start(w))
    ensures Less(Of(Step(s, Start(w), size)), Of(s))
  {
    hide Sum, Running, Retrying, Rank;
    StatusUpdate(s.status, w, Looping);
    StatusValues(s.status, w, Looping);
    SumUpdate(s.notified, w, s.notified[w] - 1);
  }

  lemma PushShrinks(s: State, w: nat, size: nat)
    requires size > 0 && Shape(s) && Enabled(s, Push(w))
    ensures Less(Of(Step(s, Push(w), size)), Of(s))
  {
    hide Sum, Running, Retrying, Rank;
    StatusUpdate(s.status, w, Idle);
    StatusValues(s.status, w, Idle);
  }

  lemma FinishShrinks(s: State, w: nat, size: nat)
    requires size > 0 && Shape(s) && Enabled(s, Finish(w))
    ensures Less(Of(Step(s, Finish(w), size)), Of(s))
  {
    hide Sum, Running, Retrying, Rank, Wake;
    StatusUpdate(s.status, w, Idle);
    StatusValues(s.status, w, Idle);
    WakeShrinks(s.(status := s.status[w := Idle]));
  }

  lemma NotifyShrinks(s: State, size: nat)
    requires size > 0 && Shape(s) && Enabled(s, Notify)
    ensures Less(Of(Step(s, Notify, size)), Of(s))
  {
    hide Sum, Running, Retrying, Rank, Wake;
    WakeShrinks(s.(owes := false));
  }

  lemma HandShrinks(s: State, w: nat, total: nat, size: nat)
    requires size > 0 && Inv(s, total) && Enabled(s, Hand(w, true))
    ensures Less(Of(Step(s, Hand(w, true), size)), Of(s))
  {
    hide Sum, Running, Retrying, Rank, Unsent, Pending, Inv, Submit, Grant, ParkedOnce;
    var o := s.status[w].o;
    InHandOnce(s, w, total);
    SubmitFacts(s, o, true, size);
    SubmitSends(s, o, size);
    var t := Submit(s, o, true, size);
    var k := s.socks[o];
    StatusUpdate(s.status, w, Retry(o));
    StatusValues(s.status, w, Retry(o));
    PendingAt(s.socks, o);
    SockUpdate(s.socks, o, t.socks[o]);
    SockUpdate(s.socks, o, k.(pending := false, error := true, connected := true));
    SockUpdate(s.socks, o, t.socks[o].(pending := false));
    assert s.socks[o := t.socks[o]][o := t.socks[o].(pending := false)] == s.socks[o := t.socks[o].(pending := false)];
  }

  lemma PendingAt(socks: seq<Sock>, o: nat)
    requires o < |socks|
    ensures Pending(socks)[o] == if socks[o].pending then 1 else 0
  {
  }

  lemma GrantSends(bytes: nat, free: nat, size: nat)
    requires size > 0
    ensures var g := Min(ChunksFor(bytes, size), free);
            && Left(bytes, g, size) <= bytes
            && (g > 0 ==> Left(bytes, g, size) < bytes)
            && (bytes == 0 ==> g == 0)
  {
    ChunksForBounds(bytes, size);
    var g := Min(ChunksFor(bytes, size), free);
    MulMonotone(size, 1, if g > 0 then g else 1);
  }

  /** A grant sends something; without a grant nothing of the pool moves. */
  lemma SubmitSends(s: State, o: nat, size: nat)
    requires size > 0 && Shape(s) && o < |s.socks|
    ensures var t := Submit(s, o, true, size);
            && t.socks[o].unsent <= s.socks[o].unsent
            && (t.posted > s.posted ==> t.socks[o].unsent < s.socks[o].unsent)
            && (s.socks[o].unsent == 0 ==> t == s)
  {
    GrantSends(s.socks[o].unsent, s.free, size);
  }

  lemma CompleteShrinks(s: State, k: nat, size: nat)
    requires size > 0 && Shape(s) && Enabled(s, Complete(k))
    ensures Less(Of(Step(s, Complete(k), size)), Of(s))
  {
  }

  lemma InternalShrinks(s: State, a: Action, total: nat, size: nat)
    requires size > 0 && Inv(s, total) && Internal(a) && Enabled(s, a)
    ensures Less(Of(Step(s, a, size)), Of(s)) && Step(s, a, size).leaked == s.leaked
  {
    hide Of, Less, Inv, Shape;
    match a
    case Complete(k) => CompleteShrinks(s, k, size);
    case Notify => NotifyShrinks(s, size);
    case Start(w) => StartShrinks(s, w, size);
    case Loop(w) => LoopShrinks(s, w, size);
    case Hand(w, ok) => HandShrinks(s, w, total, size);
    case Push(w) => PushShrinks(s, w, size);
    case Finish(w) => FinishShrinks(s, w, size);
  }

  ghost predicate Follows(s: State, a: Action, t: State, size: nat)
    requires size > 0
  {
    Shape(s) && if Quiet(s) then t == s else Internal(a) && Enabled(s, a) && t == Step(s, a, size)
  }

  /** A schedule of internal steps that goes on as long as there is one to take. */
  ghost predicate Schedule(trace: nat -> State, acts: nat -> Action, size: nat)
    requires size > 0
  {
    forall i: nat :: Follows(trace(i), acts(i), trace(i + 1), size)
  }

  lemma {:induction false} ComesToRest(trace: nat -> State, acts: nat -> Action, i: nat, total: nat,
      size: nat) returns (k: nat)
    requires size > 0 && Schedule(trace, acts, size) && Inv(trace(i), total)
    ensures i <= k && Shape(trace(k)) && Quiet(trace(k)) && Inv(trace(k), total) && trace(k).leaked == trace(i).leaked
    decreases Of(trace(i)).unsent, Of(trace(i)).posted, Of(trace(i)).pending, Of(trace(i)).tokens,
              Of(trace(i)).waiting, Of(trace(i)).rank
  {
    hide Of, Inv, Step, Enabled;
    if Quiet(trace(i)) {
      k := i;
    } else {
      assert Follows(trace(i), acts(i), trace(i + 1), size);
      InternalShrinks(trace(i), acts(i), total, size);
      StepKeepsInv(trace(i), acts(i), total, size);
      k := ComesToRest(trace, acts, i + 1, total, size);
    }
  }

  /**
   The whole pool has leaked: then no internal step sends anything. It leaves every usable socket usable
   with the same bytes unsent.
   */
  lemma LeakedStepSendsNothing(s: State, a: Action, o: nat, total: nat, size: nat)
    requires size > 0 && Inv(s, total) && s.leaked == total && Internal(a) && Enabled(s, a) && Usable(s, o)
    ensures var t := Step(s, a, size);
            Usable(t, o) && t.socks[o].unsent == s.socks[o].unsent
  {
    hide Enlist, Submit, Grant;
    if a.Hand? {
      InHandOnce(s, a.w, total);
      var p := s.status[a.w].o;
      SubmitFacts(s, p, true, size);
      NoChunkNoSend(s, p, size);
    }
  }

  lemma NoChunkNoSend(s: State, o: nat, size: nat)
    requires size > 0 && Shape(s) && o < |s.socks| && s.free == 0
    ensures Grant(s, o, size) == 0 && Submit(s, o, true, size).socks[o].unsent == s.socks[o].unsent
  {
    assert Capacity(0, size) == 0;
  }

  lemma {:induction false} LeakedNeverSends(trace: nat -> State, acts: nat -> Action, i: nat, o: nat, total: nat,
      size: nat)
    requires size > 0 && Schedule(trace, acts, size) && Inv(trace(0), total) && trace(0).leaked == total
    requires Usable(trace(0), o)
    ensures Inv(trace(i), total) && trace(i).leaked == total
    ensures Usable(trace(i), o) && trace(i).socks[o].unsent == trace(0).socks[o].unsent
  {
    hide Inv, Usable, Step, Enabled;
    if i > 0 {
      var s := trace(i - 1);
      LeakedNeverSends(trace, acts, i - 1, o, total, size);
      assert Follows(s, acts(i - 1), trace(i), size);
      if !Quiet(s) {
        InternalShrinks(s, acts(i - 1), total, size);
        StepKeepsInv(s, acts(i - 1), total, size);
        LeakedStepSendsNothing(s, acts(i - 1), o, total, size);
      }
    }
  }

  ghost predicate AllSent(s: State) {
    forall o :: !Usable(s, o)
  }

  /**
   From any reachable state, whatever the order of the internal steps: they come to rest, and at rest
   every usable socket has sent all its bytes unless failed posts have leaked the whole pool. That all is
   sent at some time is so if and only if there was nothing to send or the pool had not leaked away.
   */
  lemma EverythingIsSent(s0: State, run: seq<Action>, trace: nat -> State, acts: nat -> Action, total: nat, size: nat)
    requires size > 0 && Init(s0, total) && CanRun(s0, run, size)
    requires trace(0) == After(s0, run, size) && Schedule(trace, acts, size)
    ensures exists k :: Shape(trace(k)) && Quiet(trace(k)) && (trace(0).leaked < total ==> AllSent(trace(k)))
    ensures (exists k :: AllSent(trace(k))) <==> AllSent(trace(0)) || trace(0).leaked < total
  {
    InitInv(s0, total);
    RunKeepsInv(s0, run, total, size);
    assert trace(0).leaked <= total;
    var k := ComesToRest(trace, acts, 0, total, size);
    if trace(0).leaked < total {
      forall o ensures !Usable(trace(k), o) {
        QuietMeansSent(trace(k), total, o);
      }
      assert AllSent(trace(k));
    } else if !AllSent(trace(0)) {
      var o :| Usable(trace(0), o);
      forall k ensures !AllSent(trace(k)) {
        LeakedNeverSends(trace, acts, k, o, total, size);
      }
    }
  }

  /** One socket of one worker that nothing has happened to yet. */
  function OneSocket(): State {
    State(1, 0, 0, false, [], [0], [Idle], [[]], [Sock(0, 0, false, false, false)])
  }

  lemma Prepend(s: State, a: Action, t: State, run: seq<Action>, size: nat)
    requires size > 0 && Shape(s) && Enabled(s, a) && t == Step(s, a, size) && CanRun(t, run, size)
    ensures CanRun(s, [a] + run, size) && After(s, [a] + run, size) == After(t, run, size)
  {
    assert ([a] + run)[1..] == run;
  }

  lemma NoSteps(s: State, size: nat)
    requires size > 0
    ensures CanRun(s, [], size) && After(s, [], size) == s
  {
  }

  /** A post fails and takes the only chunk with it; the next send finds no chunk and never will. */
  lemma FailedPostStrands() returns (s0: State, run: seq<Action>)
    ensures Init(s0, 1) && CanRun(s0, run, 8)
    ensures After(s0, run, 8).leaked == 1 && Usable(After(s0, run, 8), 0)
  {
    hide CanRun, After, Enabled, Step;
    s0 := OneSocket();
    var s1 := s0.(socks := [Sock(0, 0, true, false, false)]);
    var s2 := s1.(free := 0, leaked := 1);
    var s3 := s2.(socks := [Sock(0, 5, true, false, true)], lists := [[0]], pw := [0]);
    assert s0.socks[0 := Sock(0, 0, true, false, false)] == s1.socks;
    Connects(s0, 0, s1);
    TakesChunk(s1, 0, false, s2);
    FindsNone(s2, s3);
    NoSteps(s3, 8);
    var r3: seq<Action> := [Send(0, 5, true)] + [];
    var r2 := [Send(0, 5, false)] + r3;
    run := [Handshake(0, true)] + r2;
    Prepend(s2, Send(0, 5, true), s3, [], 8);
    Prepend(s1, Send(0, 5, false), s2, r3, 8);
    Prepend(s0, Handshake(0, true), s1, r2, 8);
  }

  lemma FiveBytes()
    ensures ChunksFor(0, 8) == 0 && ChunksFor(5, 8) == 1 && Capacity(1, 8) == 8 && Capacity(0, 8) == 0
  {
  }

  /** A handshake with nothing to send. */
  lemma Connects(s: State, o: nat, t: State)
    requires Shape(s) && o < |s.socks| && s.socks[o] == Sock(0, 0, false, false, false) && s.status == [Idle]
    requires t == s.(socks := s.socks[o := Sock(0, 0, true, false, false)])
    ensures Enabled(s, Handshake(o, true)) && t == Step(s, Handshake(o, true), 8)
  {
    hide Submit, Grant;
    SubmitSends(t, o, 8);
  }

  /** Five bytes take a chunk: it is posted, or lost if the post fails. */
  lemma TakesChunk(s: State, o: nat, ok: bool, t: State)
    requires Shape(s) && o < |s.socks| && s.socks[o] == Sock(0, 0, true, false, false) && s.status == [Idle]
    requires s.free == 1
    requires t == if ok then s.(free := 0, posted := s.posted + 1) else s.(free := 0, leaked := s.leaked + 1)
    ensures Enabled(s, Send(o, 5, ok)) && t == Step(s, Send(o, 5, ok), 8)
  {
    hide ChunksFor, Capacity;
    FiveBytes();
    assert s.socks[o := Sock(0, 5, true, false, false)][o := Sock(0, 0, true, false, false)] == s.socks;
  }

  /** Without a chunk they wait. */
  lemma FindsNone(s: State, t: State)
    requires Shape(s) && s.socks == [Sock(0, 0, true, false, false)] && s.status == [Idle] && s.lists == [[]]
    requires s.free == 0 && s.pw == []
    requires t == s.(socks := [Sock(0, 5, true, false, true)], lists := [[0]], pw := [0])
    ensures Enabled(s, Send(0, 5, true)) && t == Step(s, Send(0, 5, true), 8)
  {
    hide ChunksFor, Capacity;
    FiveBytes();
    assert [] + [0] == [0];
    assert s.lists[0 := [0]] == [[0]];
  }

  // ---------- the window the model closes ----------

  /** `get_reged_mem` cut in two: the socket is in its worker's list, `make_pending_worker` is still to come. */
  function ParkHalf(s: State, o: nat): State
    requires Shape(s) && o < |s.socks|
  {
    var w := s.socks[o].owner;
    s.(lists := s.lists[w := s.lists[w] + [o]], socks := s.socks[o := s.socks[o].(pending := true)])
  }

  function TwoSockets(): State {
    State(1, 0, 0, false, [], [0], [Idle], [[]], [Sock(0, 0, false, false, false), Sock(0, 0, false, false, false)])
  }

  /** Both sockets are connected, and the second one's packet holds the only chunk. */
  function ChunkOut(): State {
    TwoSockets().(free := 0, posted := 1, socks := [Sock(0, 0, true, false, false), Sock(0, 0, true, false, false)])
  }

  /** A reachable state with a chunk on its way. */
  lemma ReachesChunkOut() returns (run: seq<Action>)
    ensures Init(TwoSockets(), 1) && CanRun(TwoSockets(), run, 8) && After(TwoSockets(), run, 8) == ChunkOut()
  {
    hide CanRun, After, Enabled, Step;
    var s0 := TwoSockets();
    var s1 := s0.(socks := [Sock(0, 0, true, false, false), Sock(0, 0, false, false, false)]);
    var s2 := s0.(socks := [Sock(0, 0, true, false, false), Sock(0, 0, true, false, false)]);
    assert s0.socks[0 := Sock(0, 0, true, false, false)] == s1.socks;
    Connects(s0, 0, s1);
    assert s1.socks[1 := Sock(0, 0, true, false, false)] == s2.socks;
    Connects(s1, 1, s2);
    TakesChunk(s2, 1, true, ChunkOut());
    NoSteps(ChunkOut(), 8);
    var r3: seq<Action> := [Send(1, 5, true)] + [];
    var r2 := [Handshake(1, true)] + r3;
    run := [Handshake(0, true)] + r2;
    Prepend(s2, Send(1, 5, true), ChunkOut(), [], 8);
    Prepend(s1, Handshake(1, true), s2, r3, 8);
    Prepend(s0, Handshake(0, true), s1, r2, 8);
  }

  /** A send of five bytes on socket 0, up to the grant: the bytes are pending and the pool had nothing. */
  function MidSend(): State {
    ChunkOut().(socks := ChunkOut().socks[0 := Sock(0, 5, true, false, false)])
  }

  /**
   With the two halves apart a sender can be stranded: the grant found the pool empty, all the chunks
   came back before its worker was listed, and nothing will ever wake that worker, although the whole
   pool is free. The state before the send is one that a run from nothing reaches.
   */
  lemma SplitGrantStrands() returns (run: seq<Action>, p: State, c: State, n: State, t: State)
    ensures Init(TwoSockets(), 1) && CanRun(TwoSockets(), run, 8) && After(TwoSockets(), run, 8) == ChunkOut()
    ensures Enabled(ChunkOut(), Send(0, 5, true)) && Grant(MidSend(), 0, 8) == 0
    ensures Shape(MidSend()) && p == ParkHalf(MidSend(), 0)
    ensures Shape(p) && Enabled(p, Complete(1)) && c == Step(p, Complete(1), 8)
    ensures Shape(c) && Enabled(c, Notify) && n == Step(c, Notify, 8)
    ensures t == n.(pw := Enlist(n.pw, 0))
    ensures Shape(t) && Usable(t, 0) && t.free == 1 && t.pw == [0] && Quiet(t) && !Waking(t)
  {
    hide Init, CanRun, After, Quiet, Waking, Usable, Enabled, Step, Shape, Grant;
    run := ReachesChunkOut();
    p := MidSend().(lists := [[0]], socks := MidSend().socks[0 := Sock(0, 5, true, false, true)]);
    c := p.(posted := 0, free := 1, owes := true);
    n := c.(owes := false);
    t := n.(pw := [0]);
    NothingGranted();
    HalfParked(p);
    assert [] + [0] == [0];
    AllBack(p, c, n);
    Stranded(t);
  }

  lemma NothingGranted()
    ensures Shape(ChunkOut()) && Enabled(ChunkOut(), Send(0, 5, true))
    ensures Shape(MidSend()) && Grant(MidSend(), 0, 8) == 0
  {
  }

  lemma HalfParked(p: State)
    requires p == MidSend().(lists := [[0]], socks := MidSend().socks[0 := Sock(0, 5, true, false, true)])
    ensures Shape(MidSend()) && p == ParkHalf(MidSend(), 0)
  {
    assert [] + [0] == [0];
  }

  lemma AllBack(p: State, c: State, n: State)
    requires p == MidSend().(lists := [[0]], socks := MidSend().socks[0 := Sock(0, 5, true, false, true)])
    requires c == p.(posted := 0, free := 1, owes := true) && n == c.(owes := false)
    ensures Shape(p) && Enabled(p, Complete(1)) && c == Step(p, Complete(1), 8)
    ensures Shape(c) && Enabled(c, Notify) && n == Step(c, Notify, 8)
  {
  }

  lemma Stranded(t: State)
    requires t == State(1, 0, 0, false, [0], [0], [Idle], [[0]],
                        [Sock(0, 5, true, false, true), Sock(0, 0, true, false, false)])
    ensures Shape(t) && Usable(t, 0) && Quiet(t) && !Waking(t)
  {
  }
}
