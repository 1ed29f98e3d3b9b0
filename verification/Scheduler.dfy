/**
 Parked senders: several worker threads and the dispatcher thread share one transmit pool. A socket
 that got too few chunks waits in its worker's list, its worker waits in the dispatcher's list, and
 completions and finished workers wake the first one
 (hardware_async/rdma/RDMAStack.cc 300-314, 416-426, 503-546; hardware_async/rdma/RDMAStack.h 103-110, 204-207).
 */
module Scheduler {
  import opened Bytes
  import opened Chunks
  import SocketTx

  /** Where a worker thread is inside `handle_pending_message`; Idle is everywhere else. */
  datatype Status =
    | Idle
    | Looping              // at the loop test
    | InHand(o: nat)       // o is popped, `submit` comes next
    | Retry(o: nat)        // `submit` said EAGAIN, o is about to be pushed back
    | Notifying            // the list is done, `notify_pending_workers` comes next

  datatype Sock = Sock(owner: nat, unsent: nat, connected: bool, error: bool, pending: bool)

  datatype State = State(
    free: nat,                // chunks in the pool
    posted: nat,              // chunks the hardware will complete
    leaked: nat,              // chunks granted to a send whose post failed
    owes: bool,               // the dispatcher has returned chunks and not yet notified
    pw: seq<nat>,             // pending_workers
    notified: seq<nat>,       // per worker: handler events in its queue
    status: seq<Status>,      // per worker
    lists: seq<seq<nat>>,     // per worker: pending_sent_conns
    socks: seq<Sock>)

  datatype Action =
    | Send(o: nat, bytes: nat, ok: bool)
    | Handshake(o: nat, ok: bool)
    | Fault(o: nat)
    | Remove(o: nat)
    | Complete(k: nat)
    | Notify
    | Start(w: nat)
    | Loop(w: nat)
    | Hand(w: nat, ok: bool)
    | Push(w: nat)
    | Finish(w: nat)

  /** The dispatcher's own lists: `make_pending_worker` and `notify_pending_workers`. */
  function Enlist(pw: seq<nat>, w: nat): seq<nat> {
    if w in pw then pw else pw + [w]
  }

  function Wake(s: State): State
    requires forall i | 0 <= i < |s.pw| :: s.pw[i] < |s.notified|
  {
    if s.pw == [] then s
    else s.(pw := s.pw[1..], notified := s.notified[s.pw[0] := s.notified[s.pw[0]] + 1])
  }

  /** The dispatcher's list in its own form; numPendingWorkers is what it checks before taking the lock. */
  class Dispatcher {
    var pendingWorkers: seq<nat>
    var numPendingWorkers: nat

    ghost predicate Valid()
      reads this
    {
      numPendingWorkers == |pendingWorkers|
    }

    constructor ()
      ensures Valid() && pendingWorkers == []
    {
      pendingWorkers, numPendingWorkers := [], 0;
    }

    method MakePendingWorker(w: nat)
      requires Valid()
      modifies this
      ensures Valid() && pendingWorkers == Enlist(old(pendingWorkers), w)
    {
      var it := 0;
      while it < |pendingWorkers| && pendingWorkers[it] != w
        invariant it <= |pendingWorkers| && w !in pendingWorkers[..it]
      {
        it := it + 1;
      }
      assert it == |pendingWorkers| ==> pendingWorkers[..it] == pendingWorkers;
      if it != |pendingWorkers| {
        return;
      }
      pendingWorkers := pendingWorkers + [w];
      numPendingWorkers := numPendingWorkers + 1;
    }

    /** The worker to notify, if any: the one that has waited longest. */
    method NotifyPendingWorkers() returns (found: bool, w: nat)
      requires Valid()
      modifies this
      ensures Valid() && (found <==> old(pendingWorkers) != [])
      ensures old(pendingWorkers) == (if found then [w] else []) + pendingWorkers
    {
      found, w := false, 0;
      if numPendingWorkers != 0 {
        if pendingWorkers != [] {
          found, w := true, pendingWorkers[0];
          pendingWorkers := pendingWorkers[1..];
          numPendingWorkers := numPendingWorkers - 1;
        }
      }
    }
  }

  function Grant(s: State, o: nat, size: nat): nat
    requires o < |s.socks| && size > 0
  {
    Min(ChunksFor(s.socks[o].unsent, size), s.free)
  }

  /** Bytes still unsent after a grant. */
  function Left(bytes: nat, granted: nat, size: nat): nat {
    bytes - Min(bytes, Capacity(granted, size))
  }

  /** A short grant parks the socket, once, and its worker. */
  function Park(s: State, o: nat): State
    requires o < |s.socks| && s.socks[o].owner < |s.lists|
  {
    var w := s.socks[o].owner;
    s.(lists := if s.socks[o].pending then s.lists else s.lists[w := s.lists[w] + [o]],
       socks := s.socks[o := s.socks[o].(pending := true)],
       pw := Enlist(s.pw, w))
  }

  /** `submit` on an error-free socket, with `get_reged_mem` in one step; ok: the post succeeds. */
  function Submit(s: State, o: nat, ok: bool, size: nat): State
    requires o < |s.socks| && s.socks[o].owner < |s.lists| && size > 0
  {
    var g := Grant(s, o, size);
    var left := Left(s.socks[o].unsent, g, size);
    var s1 := s.(free := s.free - g,
                 posted := s.posted + if ok then g else 0,
                 leaked := s.leaked + if ok then 0 else g,
                 socks := s.socks[o := s.socks[o].(unsent := left)]);
    if left > 0 then Park(s1, o) else s1
  }

  /** The socket leaves the hand of its worker for good. */
  function Release(s: State, w: nat, o: nat, broken: bool): State
    requires o < |s.socks| && w < |s.status|
  {
    var k := s.socks[o];
    s.(status := s.status[w := Looping],
       socks := s.socks[o := k.(pending := false, error := k.error || broken, connected := k.connected || broken)])
  }

  function Without(l: seq<nat>, o: nat): (r: seq<nat>)
    ensures o !in r
    ensures forall p | p != o :: multiset(r)[p] == multiset(l)[p]
  {
    if l == [] then []
    else
      assert l == [l[0]] + l[1..];
      if l[0] == o then Without(l[1..], o) else [l[0]] + Without(l[1..], o)
  }

  predicate Shape(s: State) {
    && |s.notified| == |s.status| == |s.lists|
    && (forall i | 0 <= i < |s.pw| :: s.pw[i] < |s.status|)
    && (forall o | 0 <= o < |s.socks| :: s.socks[o].owner < |s.status|)
    && (forall w, i | 0 <= w < |s.lists| && 0 <= i < |s.lists[w]| :: s.lists[w][i] < |s.socks|)
    && (forall w | 0 <= w < |s.status| && s.status[w].InHand? :: s.status[w].o < |s.socks|)
    && (forall w | 0 <= w < |s.status| && s.status[w].Retry? :: s.status[w].o < |s.socks|)
  }

  predicate Enabled(s: State, a: Action)
    requires Shape(s)
  {
    match a
    case Send(o, bytes, ok) => o < |s.socks| && s.status[s.socks[o].owner].Idle? && !s.socks[o].error
    case Handshake(o, ok) => o < |s.socks| && s.status[s.socks[o].owner].Idle? && !s.socks[o].connected
        && !s.socks[o].error
    case Fault(o) => o < |s.socks|
    case Remove(o) => o < |s.socks| && s.status[s.socks[o].owner].Idle?
    case Complete(k) => 0 < k <= s.posted && !s.owes
    case Notify => s.owes
    case Start(w) => w < |s.status| && s.status[w].Idle? && s.notified[w] > 0
    case Loop(w) => w < |s.status| && s.status[w].Looping?
    case Hand(w, ok) => w < |s.status| && s.status[w].InHand?
    case Push(w) => w < |s.status| && s.status[w].Retry?
    case Finish(w) => w < |s.status| && s.status[w].Notifying?
  }

  function Step(s: State, a: Action, size: nat): State
    requires size > 0 && Shape(s) && Enabled(s, a)
  {
    match a
    case Send(o, bytes, ok) =>
      var s1 := s.(socks := s.socks[o := s.socks[o].(unsent := s.socks[o].unsent + bytes)]);
      if bytes > 0 && s.socks[o].connected then Submit(s1, o, ok, size) else s1
    case Handshake(o, ok) =>
      Submit(s.(socks := s.socks[o := s.socks[o].(connected := true)]), o, ok, size)
    case Fault(o) => s.(socks := s.socks[o := s.socks[o].(error := true, connected := true)])
    case Remove(o) =>
      var w := s.socks[o].owner;
      s.(lists := s.lists[w := Without(s.lists[w], o)], socks := s.socks[o := s.socks[o].(error := true,
          pending := false)])
    case Complete(k) => s.(posted := s.posted - k, free := s.free + k, owes := true)
    case Notify => Wake(s.(owes := false))
    case Start(w) => s.(notified := s.notified[w := s.notified[w] - 1], status := s.status[w := Looping])
    case Loop(w) =>
      if s.lists[w] == [] then s.(status := s.status[w := Notifying])
      else s.(lists := s.lists[w := s.lists[w][1..]], status := s.status[w := InHand(s.lists[w][0])])
    case Hand(w, ok) =>
      var o := s.status[w].o;
      if s.socks[o].error then Release(s, w, o, true)
      else
        var s1 := Submit(s, o, ok, size);
        if !ok && Grant(s, o, size) > 0 then Release(s1, w, o, true)
        else if s1.socks[o].unsent > 0 then s1.(status := s1.status[w := Retry(o)])
        else Release(s1, w, o, false)
    case Push(w) =>
      s.(lists := s.lists[w := s.lists[w] + [s.status[w].o]], status := s.status[w := Idle], pw := Enlist(s.pw, w))
    case Finish(w) => Wake(s.(status := s.status[w := Idle]))
  }

  /** The worker will look at its list, or at the dispatcher's, without being woken again. */
  predicate Active(s: State, v: nat)
    requires Shape(s) && v < |s.status|
  {
    s.notified[v] > 0 || s.status[v].Looping? || s.status[v].InHand? || s.status[v].Notifying?
  }

  predicate Waking(s: State)
    requires Shape(s)
  {
    s.posted > 0 || s.owes || exists v | 0 <= v < |s.status| :: Active(s, v)
  }

  /** How often worker w has socket o: in its list or in its hand. */
  function Held(s: State, w: nat, o: nat): nat
    requires Shape(s) && w < |s.status|
  {
    multiset(s.lists[w])[o] + if s.status[w] == InHand(o) || s.status[w] == Retry(o) then 1 else 0
  }

  ghost predicate Inv(s: State, total: nat)
    ensures Inv(s, total) ==> Shape(s)
  {
    && Shape(s) && s.free + s.posted + s.leaked == total
    && ParkedOnce(s) && UnsentParked(s) && ListedAwake(s)
    && (s.leaked < total && s.pw != [] ==> Waking(s))
  }

  /** A parked socket is held by its owner once, any other socket by nobody. */
  ghost predicate ParkedOnce(s: State)
    requires Shape(s)
  {
    forall w, o | 0 <= w < |s.status| && 0 <= o < |s.socks| ::
      Held(s, w, o) == if s.socks[o].pending && s.socks[o].owner == w then 1 else 0
  }

  /** A usable socket with bytes left is parked. */
  ghost predicate UnsentParked(s: State) {
    forall o | 0 <= o < |s.socks| ::
      s.socks[o].connected && !s.socks[o].error && s.socks[o].unsent > 0 ==> s.socks[o].pending
  }

  /** A worker that is not at it has an empty list, or waits its turn, or is notified. */
  ghost predicate ListedAwake(s: State)
    requires Shape(s)
  {
    forall w | 0 <= w < |s.status| ::
      && (s.status[w].Notifying? ==> s.lists[w] == [])
      && (s.status[w].Retry? || (s.status[w].Idle? && s.lists[w] != []) ==> w in s.pw || s.notified[w] > 0)
  }

  /** Bytes are left exactly when the grant was short, and then the pool is empty. */
  lemma ShortGrant(bytes: nat, free: nat, size: nat)
    requires size > 0
    ensures var g := Min(ChunksFor(bytes, size), free);
            Left(bytes, g, size) > 0 ==> g == free < ChunksFor(bytes, size)
  {
    ChunksForBounds(bytes, size);
  }

  lemma SubmitFacts(s: State, o: nat, ok: bool, size: nat)
    requires Shape(s) && o < |s.socks| && size > 0
    ensures var t := Submit(s, o, ok, size);
            var w := s.socks[o].owner;
            var left := t.socks[o].unsent;
            && t.owes == s.owes && t.notified == s.notified && t.status == s.status && |t.lists| == |s.lists|
            && t.free + t.posted + t.leaked == s.free + s.posted + s.leaked
            && t.posted >= s.posted && t.leaked >= s.leaked
            && t.socks == s.socks[o := s.socks[o].(unsent := left, pending := s.socks[o].pending || left > 0)]
            && (left > 0 ==> t.free == 0 && t.pw == Enlist(s.pw, w))
            && (left == 0 || s.socks[o].pending ==> t.lists == s.lists)
            && (left > 0 && !s.socks[o].pending ==> t.lists == s.lists[w := s.lists[w] + [o]])
            && (left == 0 ==> t.pw == s.pw)
  {
    hide ChunksFor, Capacity;
    ShortGrant(s.socks[o].unsent, s.free, size);
  }

  lemma EnlistFacts(pw: seq<nat>, w: nat)
    ensures var r := Enlist(pw, w);
            w in r && r != [] && (forall v | v in pw :: v in r) && forall v | v in r :: v in pw || v == w
  {
  }

  lemma SubmitKeepsShape(s: State, o: nat, ok: bool, size: nat)
    requires Shape(s) && o < |s.socks| && size > 0
    ensures Shape(Submit(s, o, ok, size))
  {
    hide Submit;
    SubmitFacts(s, o, ok, size);
    EnlistFacts(s.pw, s.socks[o].owner);
    var t := Submit(s, o, ok, size);
    assert forall i | 0 <= i < |t.pw| :: t.pw[i] in t.pw;
  }

  lemma FaultKeepsInv(s: State, o: nat, total: nat, size: nat)
    requires size > 0 && Inv(s, total) && Enabled(s, Fault(o))
    ensures Inv(Step(s, Fault(o), size), total)
  {
    var t := Step(s, Fault(o), size);
    SameHolding(s, t);
    if Waking(s) {
      SameWaking(s, t);
    }
  }

  /** Lists and hands are as before, and so are the owners and the pending flags. */
  lemma SameHolding(s: State, t: State)
    requires Shape(s) && Shape(t) && ParkedOnce(s)
    requires t.lists == s.lists && t.status == s.status && |t.socks| == |s.socks|
    requires forall o | 0 <= o < |s.socks| ::
               t.socks[o].pending == s.socks[o].pending && t.socks[o].owner == s.socks[o].owner
    ensures ParkedOnce(t)
  {
    forall w, o | 0 <= w < |t.status| && 0 <= o < |t.socks|
      ensures Held(t, w, o) == if t.socks[o].pending && t.socks[o].owner == w then 1 else 0
    {
      assert Held(t, w, o) == Held(s, w, o);
    }
  }

  lemma SameWaking(s: State, t: State)
    requires Shape(s) && Shape(t) && Waking(s)
    requires t.status == s.status && t.notified == s.notified && t.posted >= s.posted && (s.owes ==> t.owes)
    ensures Waking(t)
  {
    if v :| 0 <= v < |s.status| && Active(s, v) {
      assert Active(t, v);
    }
  }

  lemma CompleteKeepsInv(s: State, k: nat, total: nat, size: nat)
    requires size > 0 && Inv(s, total) && Enabled(s, Complete(k))
    ensures Inv(Step(s, Complete(k), size), total)
  {
    SameHolding(s, Step(s, Complete(k), size));
  }

  /** Waking the first waiting worker: afterwards it is active. */
  lemma WakeKeepsInv(s: State, total: nat)
    requires Shape(s) && ParkedOnce(s) && UnsentParked(s) && ListedAwake(s) && s.free + s.posted + s.leaked == total
    ensures Inv(Wake(s), total)
  {
    var t := Wake(s);
    if s.pw != [] {
      var v := s.pw[0];
      assert Shape(t);
      assert Active(t, v);
      SameHolding(s, t);
      forall w | 0 <= w < |t.status| && w in s.pw
        ensures w in t.pw || t.notified[w] > 0
      {
        assert s.pw == [v] + t.pw;
      }
    }
  }

  lemma NotifyKeepsInv(s: State, total: nat, size: nat)
    requires size > 0 && Inv(s, total) && Enabled(s, Notify)
    ensures Inv(Step(s, Notify, size), total)
  {
    hide Wake;
    var s1 := s.(owes := false);
    SameHolding(s, s1);
    WakeKeepsInv(s1, total);
  }

  lemma StartKeepsInv(s: State, w: nat, total: nat, size: nat)
    requires size > 0 && Inv(s, total) && Enabled(s, Start(w))
    ensures Inv(Step(s, Start(w), size), total)
  {
    var t := Step(s, Start(w), size);
    assert Shape(t);
    assert Active(t, w);
    forall v, o | 0 <= v < |t.status| && 0 <= o < |t.socks|
      ensures Held(t, v, o) == if t.socks[o].pending && t.socks[o].owner == v then 1 else 0
    {
      assert Held(t, v, o) == Held(s, v, o);
    }
  }

  /** Popping the list moves its first socket into the hand. */
  lemma LoopHolding(s: State, w: nat, size: nat)
    requires size > 0 && Shape(s) && ParkedOnce(s) && Enabled(s, Loop(w))
    ensures Shape(Step(s, Loop(w), size)) && ParkedOnce(Step(s, Loop(w), size))
  {
    var t := Step(s, Loop(w), size);
    assert Shape(t);
    if s.lists[w] != [] {
      assert s.lists[w] == [s.lists[w][0]] + s.lists[w][1..];
    }
    forall v, o | 0 <= v < |t.status| && 0 <= o < |t.socks|
      ensures Held(t, v, o) == if t.socks[o].pending && t.socks[o].owner == v then 1 else 0
    {
      assert Held(t, v, o) == Held(s, v, o);
    }
  }

  lemma LoopKeepsInv(s: State, w: nat, total: nat, size: nat)
    requires size > 0 && Inv(s, total) && Enabled(s, Loop(w))
    ensures Inv(Step(s, Loop(w), size), total)
  {
    LoopHolding(s, w, size);
    hide ParkedOnce;
    assert Active(Step(s, Loop(w), size), w);
  }

  lemma PushKeepsInv(s: State, w: nat, total: nat, size: nat)
    requires size > 0 && Inv(s, total) && Enabled(s, Push(w))
    ensures Inv(Step(s, Push(w), size), total)
  {
    hide Enlist;
    EnlistFacts(s.pw, w);
    var t := Step(s, Push(w), size);
    assert forall i | 0 <= i < |t.pw| :: t.pw[i] in t.pw;
    assert Shape(t);
    forall v, o | 0 <= v < |t.status| && 0 <= o < |t.socks|
      ensures Held(t, v, o) == if t.socks[o].pending && t.socks[o].owner == v then 1 else 0
    {
      assert Held(t, v, o) == Held(s, v, o);
    }
    if s.leaked < total {
      if s.pw == [] {
        assert Active(t, w);
      } else if v :| 0 <= v < |s.status| && Active(s, v) {
        assert Active(t, v);
      }
    }
  }

  lemma FinishKeepsInv(s: State, w: nat, total: nat, size: nat)
    requires size > 0 && Inv(s, total) && Enabled(s, Finish(w))
    ensures Inv(Step(s, Finish(w), size), total)
  {
    hide Wake;
    var s1 := s.(status := s.status[w := Idle]);
    forall v, o | 0 <= v < |s1.status| && 0 <= o < |s1.socks|
      ensures Held(s1, v, o) == if s1.socks[o].pending && s1.socks[o].owner == v then 1 else 0
    {
      assert Held(s1, v, o) == Held(s, v, o);
    }
    WakeKeepsInv(s1, total);
  }

  lemma RemoveKeepsInv(s: State, o: nat, total: nat, size: nat)
    requires size > 0 && Inv(s, total) && Enabled(s, Remove(o))
    ensures Inv(Step(s, Remove(o), size), total)
  {
    var t := Step(s, Remove(o), size);
    var w := s.socks[o].owner;
    forall i | 0 <= i < |t.lists[w]|
      ensures t.lists[w][i] < |t.socks|
    {
      assert t.lists[w][i] in multiset(t.lists[w]);
      assert t.lists[w][i] in multiset(s.lists[w]);
    }
    assert Shape(t);
    forall v, p | 0 <= v < |t.status| && 0 <= p < |t.socks|
      ensures Held(t, v, p) == if t.socks[p].pending && t.socks[p].owner == v then 1 else 0
    {
      assert Held(s, v, p) == if s.socks[p].pending && s.socks[p].owner == v then 1 else 0;
    }
    assert s.lists[w] == [] ==> t.lists[w] == [];
    if Waking(s) {
      SameWaking(s, t);
    }
  }

  /** Everything Inv asks for, except that socket o may have bytes without being parked. */
  ghost predicate Almost(s: State, o: nat, total: nat) {
    && Shape(s) && s.free + s.posted + s.leaked == total && o < |s.socks|
    && ParkedOnce(s) && ListedAwake(s)
    && (forall p | 0 <= p < |s.socks| && p != o ::
          s.socks[p].connected && !s.socks[p].error && s.socks[p].unsent > 0 ==> s.socks[p].pending)
    && (s.leaked < total && s.pw != [] ==> Waking(s))
  }

  lemma SubmitWaking(s: State, o: nat, ok: bool, total: nat, size: nat)
    requires size > 0 && Almost(s, o, total)
    ensures var t := Submit(s, o, ok, size); Shape(t) && (t.leaked < total && t.pw != [] ==> Waking(t))
  {
    hide Submit;
    SubmitFacts(s, o, ok, size);
    SubmitKeepsShape(s, o, ok, size);
    var t := Submit(s, o, ok, size);
    if t.leaked < total && t.socks[o].unsent == 0 && s.pw != [] {
      SameWaking(s, t);
    }
  }

  /** A send outside the handler: the socket is parked if bytes are left, and everything else stays. */
  lemma SubmitKeepsInv(s: State, o: nat, ok: bool, total: nat, size: nat)
    requires size > 0 && Almost(s, o, total) && s.status[s.socks[o].owner].Idle?
    ensures Inv(Submit(s, o, ok, size), total)
  {
    hide Submit, Enlist, Waking;
    SubmitWaking(s, o, ok, total, size);
    SubmitFacts(s, o, ok, size);
    EnlistFacts(s.pw, s.socks[o].owner);
    var t := Submit(s, o, ok, size);
    forall v, p | 0 <= v < |t.status| && 0 <= p < |t.socks|
      ensures Held(t, v, p) == if t.socks[p].pending && t.socks[p].owner == v then 1 else 0
    {
      assert Held(s, v, p) == if s.socks[p].pending && s.socks[p].owner == v then 1 else 0;
    }
  }

  lemma SendKeepsInv(s: State, o: nat, bytes: nat, ok: bool, total: nat, size: nat)
    requires size > 0 && Inv(s, total) && Enabled(s, Send(o, bytes, ok))
    ensures Inv(Step(s, Send(o, bytes, ok), size), total)
  {
    hide Submit;
    var s1 := s.(socks := s.socks[o := s.socks[o].(unsent := s.socks[o].unsent + bytes)]);
    SameHolding(s, s1);
    if Waking(s) {
      SameWaking(s, s1);
    }
    if bytes > 0 && s.socks[o].connected {
      SubmitKeepsInv(s1, o, ok, total, size);
    }
  }

  lemma HandshakeKeepsInv(s: State, o: nat, ok: bool, total: nat, size: nat)
    requires size > 0 && Inv(s, total) && Enabled(s, Handshake(o, ok))
    ensures Inv(Step(s, Handshake(o, ok), size), total)
  {
    hide Submit;
    var s1 := s.(socks := s.socks[o := s.socks[o].(connected := true)]);
    SameHolding(s, s1);
    if Waking(s) {
      SameWaking(s, s1);
    }
    SubmitKeepsInv(s1, o, ok, total, size);
  }

  /** The socket in hand is parked there, and nowhere else. */
  lemma InHandOnce(s: State, w: nat, total: nat)
    requires Inv(s, total) && w < |s.status| && s.status[w].InHand?
    ensures var o := s.status[w].o; s.socks[o].pending && s.socks[o].owner == w && multiset(s.lists[w])[o] == 0
  {
    assert Held(s, w, s.status[w].o) >= 1;
  }

  lemma ReleaseKeepsInv(s: State, w: nat, broken: bool, total: nat)
    requires Shape(s) && s.free + s.posted + s.leaked == total && ParkedOnce(s) && ListedAwake(s)
    requires w < |s.status| && s.status[w].InHand? && s.socks[s.status[w].o].pending
             && s.socks[s.status[w].o].owner == w
    requires forall p | 0 <= p < |s.socks| && p != s.status[w].o ::
          s.socks[p].connected && !s.socks[p].error && s.socks[p].unsent > 0 ==> s.socks[p].pending
    requires broken || s.socks[s.status[w].o].error || s.socks[s.status[w].o].unsent == 0
    ensures Inv(Release(s, w, s.status[w].o, broken), total)
  {
    var o := s.status[w].o;
    var t := Release(s, w, o, broken);
    assert Shape(t);
    assert Active(t, w);
    forall v, p | 0 <= v < |t.status| && 0 <= p < |t.socks|
      ensures Held(t, v, p) == if t.socks[p].pending && t.socks[p].owner == v then 1 else 0
    {
      assert Held(s, v, p) == if s.socks[p].pending && s.socks[p].owner == v then 1 else 0;
      assert Held(s, w, o) == 1;
    }
  }

  lemma HandKeepsInv(s: State, w: nat, ok: bool, total: nat, size: nat)
    requires size > 0 && Inv(s, total) && Enabled(s, Hand(w, ok))
    ensures Inv(Step(s, Hand(w, ok), size), total)
  {
    hide Submit, Enlist, Waking, Release, Grant;
    InHandOnce(s, w, total);
    var o := s.status[w].o;
    if s.socks[o].error {
      ReleaseKeepsInv(s, w, true, total);
    } else {
      SubmitWaking(s, o, ok, total, size);
      SubmitFacts(s, o, ok, size);
      EnlistFacts(s.pw, w);
      var s1 := Submit(s, o, ok, size);
      SameHolding(s, s1);
      if !ok && Grant(s, o, size) > 0 {
        ReleaseKeepsInv(s1, w, true, total);
      } else if s1.socks[o].unsent > 0 {
        RetryKeepsInv(s1, w, total);
      } else {
        ReleaseKeepsInv(s1, w, false, total);
      }
    }
  }

  /** A short grant while in hand: the pool is empty, so the hardware still has chunks to give back. */
  lemma RetryKeepsInv(s: State, w: nat, total: nat)
    requires Shape(s) && s.free + s.posted + s.leaked == total && ParkedOnce(s) && ListedAwake(s) && UnsentParked(s)
    requires w < |s.status| && s.status[w].InHand? && w in s.pw && s.free == 0
    ensures Inv(s.(status := s.status[w := Retry(s.status[w].o)]), total)
  {
    var t := s.(status := s.status[w := Retry(s.status[w].o)]);
    assert Shape(t);
    forall v, p | 0 <= v < |t.status| && 0 <= p < |t.socks|
      ensures Held(t, v, p) == if t.socks[p].pending && t.socks[p].owner == v then 1 else 0
    {
      assert Held(t, v, p) == Held(s, v, p);
    }
  }

  lemma StepKeepsInv(s: State, a: Action, total: nat, size: nat)
    requires size > 0 && Inv(s, total) && Enabled(s, a)
    ensures Inv(Step(s, a, size), total)
  {
    hide Step, Inv, Enabled;
    match a
    case Send(o, bytes, ok) => SendKeepsInv(s, o, bytes, ok, total, size);
    case Handshake(o, ok) => HandshakeKeepsInv(s, o, ok, total, size);
    case Fault(o) => FaultKeepsInv(s, o, total, size);
    case Remove(o) => RemoveKeepsInv(s, o, total, size);
    case Complete(k) => CompleteKeepsInv(s, k, total, size);
    case Notify => NotifyKeepsInv(s, total, size);
    case Start(w) => StartKeepsInv(s, w, total, size);
    case Loop(w) => LoopKeepsInv(s, w, total, size);
    case Hand(w, ok) => HandKeepsInv(s, w, ok, total, size);
    case Push(w) => PushKeepsInv(s, w, total, size);
    case Finish(w) => FinishKeepsInv(s, w, total, size);
  }

  // ---------------------------------------------------------------- bytes and chunks are the socket's own

  /**
   In lengths, the step is what the socket's `submit` does to any pending bytes: it takes one chunk for
   each packet, and what is left unsent is what the packets do not hold.
   */
  lemma SubmitIsTheSockets(s: State, o: nat, ok: bool, size: nat, pending: seq<byte>, packets: seq<seq<byte>>)
    requires Shape(s) && o < |s.socks| && size > 0 && |pending| == s.socks[o].unsent
    requires SocketTx.Submits(pending, s.free, size, packets)
    ensures var t := Submit(s, o, ok, size);
            && t.free == s.free - |packets| && t.socks[o].unsent == |pending| - |Flatten(packets)|
            && t.posted == s.posted + (if ok then |packets| else 0)
            && t.leaked == s.leaked + (if ok then 0 else |packets|)
  {
    hide ChunksFor, Capacity, Flatten;
  }

  /**
   `send` on a connected socket submits the pending bytes and the new ones; on one that still shakes hands
   it only keeps them, and the end of the handshake submits them all.
   */
  lemma SendIsTheSockets(s: State, o: nat, ok: bool, size: nat, pending: seq<byte>, more: seq<byte>,
                         packets: seq<seq<byte>>)
    requires size > 0 && Shape(s) && o < |s.socks| && |pending| == s.socks[o].unsent
    requires SocketTx.Submits(pending + more, s.free, size, packets)
    ensures Enabled(s, Send(o, |more|, ok)) && s.socks[o].connected && more != [] ==>
              Step(s, Send(o, |more|, ok), size).socks[o].unsent == |pending + more| - |Flatten(packets)|
    ensures Enabled(s, Send(o, |more|, ok)) && !s.socks[o].connected ==>
              Step(s, Send(o, |more|, ok), size).socks[o].unsent == |pending + more|
    ensures Enabled(s, Handshake(o, ok)) && more == [] ==>
              Step(s, Handshake(o, ok), size).socks[o].unsent == |pending| - |Flatten(packets)|
  {
    hide ChunksFor, Capacity, Flatten, Submit, SocketTx.Submits;
    assert more == [] ==> pending + more == pending;
    SubmitIsTheSockets(s.(socks := s.socks[o := s.socks[o].(unsent := s.socks[o].unsent + |more|)]), o, ok, size,
                       pending + more, packets);
    if more == [] {
      SubmitIsTheSockets(s.(socks := s.socks[o := s.socks[o].(connected := true)]), o, ok, size, pending, packets);
    }
  }

  /** A fault makes the socket unusable, and no step ever repairs it or sends another byte of it. */
  lemma BrokenStaysBroken(s: State, a: Action, size: nat, o: nat)
    requires size > 0 && Shape(s) && Enabled(s, a) && o < |s.socks|
    ensures var t := Step(s, a, size);
            && |t.socks| == |s.socks|
            && (a == Fault(o) || a == Remove(o) ==> t.socks[o].error)
            && (s.socks[o].error ==> t.socks[o].error && t.socks[o].unsent == s.socks[o].unsent)
  {
    hide Submit, Grant, Without;
    match a
    case Send(k, bytes, ok) =>
      SubmitFacts(s.(socks := s.socks[k := s.socks[k].(unsent := s.socks[k].unsent + bytes)]), k, ok, size);
    case Handshake(k, ok) => SubmitFacts(s.(socks := s.socks[k := s.socks[k].(connected := true)]), k, ok, size);
    case Hand(w, ok) => SubmitFacts(s, s.status[w].o, ok, size);
    case _ =>
  }
}
