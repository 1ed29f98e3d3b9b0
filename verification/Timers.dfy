/**
 The timers of the event loop: a multimap by expiry time and an index by id
 (hardware_async/Event.cc 283-315, 335-393; hardware_async/Event.h 107-112, 188-195).
 Times are in nanoseconds, delays and waits in microseconds, as in the source.
 */
module Timers {

  datatype TimeEvent = TimeEvent(expire: nat, id: nat, cb: nat)

  /** What a callback does to the timers; `at` is the clock when it does it. */
  datatype Op = Create(at: nat, microseconds: nat, cb: nat) | Delete(id: nat)

  predicate Sorted(s: seq<TimeEvent>) {
    forall i, j | 0 <= i < j < |s| :: s[i].expire <= s[j].expire
  }

  predicate DistinctIds(s: seq<TimeEvent>) {
    forall i, j | 0 <= i < j < |s| :: s[i].id != s[j].id
  }

  /** How many entries come before a new one that expires at t: multimap::insert puts equals last. */
  function UpperBound(s: seq<TimeEvent>, t: nat): (i: nat)
    ensures i <= |s| && forall k | 0 <= k < i :: s[k].expire <= t
    ensures i < |s| ==> s[i].expire > t
  {
    if s == [] || s[0].expire > t then 0 else 1 + UpperBound(s[1..], t)
  }

  function Insert(s: seq<TimeEvent>, e: TimeEvent): seq<TimeEvent> {
    var i := UpperBound(s, e.expire);
    s[..i] + [e] + s[i..]
  }

  function IndexOf(s: seq<TimeEvent>, e: TimeEvent): (i: nat)
    requires e in s
    ensures i < |s| && s[i] == e
  {
    if s[0] == e then 0 else 1 + IndexOf(s[1..], e)
  }

  /** multimap::erase of one entry. */
  function Erase(s: seq<TimeEvent>, e: TimeEvent): seq<TimeEvent>
    requires e in s
  {
    var i := IndexOf(s, e);
    s[..i] + s[i + 1..]
  }

  lemma InsertAt(s: seq<TimeEvent>, e: TimeEvent, k: nat)
    requires k <= |s|
    ensures |Insert(s, e)| == |s| + 1
    ensures var i := UpperBound(s, e.expire);
            Insert(s, e)[k] == if k < i then s[k] else if k == i then e else s[k - 1]
  {
  }

  lemma InsertMembers(s: seq<TimeEvent>, e: TimeEvent)
    ensures forall x :: x in Insert(s, e) <==> x in s || x == e
  {
    var i := UpperBound(s, e.expire);
    assert s == s[..i] + s[i..];
  }

  lemma InsertKeeps(s: seq<TimeEvent>, e: TimeEvent)
    requires Sorted(s) && DistinctIds(s) && forall x | x in s :: x.id != e.id
    ensures Sorted(Insert(s, e)) && DistinctIds(Insert(s, e))
    ensures forall x :: x in Insert(s, e) <==> x in s || x == e
  {
    hide Insert;
    var r := Insert(s, e);
    InsertMembers(s, e);
    InsertAt(s, e, 0);
    forall j, k | 0 <= j < k < |r|
      ensures r[j].expire <= r[k].expire && r[j].id != r[k].id
    {
      InsertAt(s, e, j);
      InsertAt(s, e, k);
    }
  }

  lemma EraseAt(s: seq<TimeEvent>, e: TimeEvent, k: nat)
    requires e in s && k < |s| - 1
    ensures |Erase(s, e)| == |s| - 1
    ensures Erase(s, e)[k] == if k < IndexOf(s, e) then s[k] else s[k + 1]
  {
  }

  lemma EraseMembers(s: seq<TimeEvent>, e: TimeEvent)
    requires e in s && DistinctIds(s)
    ensures forall x :: x in Erase(s, e) <==> x in s && x != e
  {
    var i := IndexOf(s, e);
    assert s == s[..i] + [s[i]] + s[i + 1..];
  }

  lemma EraseKeeps(s: seq<TimeEvent>, e: TimeEvent)
    requires e in s && Sorted(s) && DistinctIds(s)
    ensures Sorted(Erase(s, e)) && DistinctIds(Erase(s, e))
    ensures forall x :: x in Erase(s, e) <==> x in s && x != e
  {
    EraseMembers(s, e);
    hide Erase;
    if |s| > 1 {
      EraseAt(s, e, 0);
    }
    var r := Erase(s, e);
    forall j, k | 0 <= j < k < |r|
      ensures r[j].expire <= r[k].expire && r[j].id != r[k].id
    {
      EraseAt(s, e, j);
      EraseAt(s, e, k);
    }
  }

  lemma RestKeeps(s: seq<TimeEvent>)
    requires s != [] && Sorted(s) && DistinctIds(s)
    ensures Sorted(s[1..]) && DistinctIds(s[1..])
    ensures forall x | x in s[1..] :: x in s && x.id != s[0].id && s[0].expire <= x.expire
    ensures forall x | x in s :: x == s[0] || x in s[1..]
  {
    assert s == [s[0]] + s[1..];
  }

  /** The wait of `process_events` when it blocks, and whether it will look at the timers afterwards. */
  function BlockingWait(now: nat, timeout: nat, events: seq<TimeEvent>): (nat, bool) {
    if events != [] && now + timeout * 1000 >= events[0].expire
    then (if events[0].expire > now then (events[0].expire - now) / 1000 else 0, true)
    else (timeout, false)
  }

  /**
   A blocking wait ends no later than any timer expires, is no longer than asked for, and whenever a
   timer could expire during it (or has) the timers are looked at; it is cut short by less than a microsecond.
   */
  lemma WaitNeverTooLong(now: nat, timeout: nat, events: seq<TimeEvent>)
    requires Sorted(events)
    ensures var (wait, trigger) := BlockingWait(now, timeout, events);
            && wait <= timeout
            && (forall i | 0 <= i < |events| ::
                  now + wait * 1000 <= events[i].expire || (wait == 0 && events[i].expire <= now))
            && (trigger <==> exists i :: 0 <= i < |events| && events[i].expire <= now + timeout * 1000)
            && (trigger && events[0].expire > now ==> events[0].expire - now < wait * 1000 + 1000)
            && (!trigger ==> wait == timeout)
  {
    if events != [] {
      assert events[0].expire <= events[|events| - 1].expire || |events| == 1;
    }
  }

  // ---------------------------------------------------------------- what callbacks leave

  /** How many timers the operations create. */
  function Creates(ops: seq<Op>): nat {
    if ops == [] then 0 else Creates(ops[..|ops| - 1]) + if ops[|ops| - 1].Create? then 1 else 0
  }

  /** e is the timer that op creates under this id. */
  predicate IsNew(e: TimeEvent, op: Op, id: nat) {
    op.Create? && e == TimeEvent(op.at + op.microseconds * 1000, id, op.cb)
  }

  /** One of the operations creates e, under the next unused id, and no later one deletes it. */
  predicate Made(e: TimeEvent, ops: seq<Op>, next: nat) {
    ops != [] &&
    var earlier, op := ops[..|ops| - 1], ops[|ops| - 1];
    (Made(e, earlier, next) && op != Delete(e.id)) || IsNew(e, op, next + Creates(earlier))
  }

  /** e is there after the operations: it was there before and is not deleted, or it is created. */
  predicate Remains(e: TimeEvent, before: seq<TimeEvent>, next: nat, ops: seq<Op>) {
    (e in before && Delete(e.id) !in ops) || Made(e, ops, next)
  }

  /** What the first n callbacks did, one after the other. */
  function Done(scripts: seq<seq<Op>>, n: nat): seq<Op> {
    if n == 0 then []
    else Done(scripts, n - 1) + if n <= |scripts| then scripts[n - 1] else []
  }

  predicate Pending(e: TimeEvent, before: seq<TimeEvent>, next: nat, ops: seq<Op>, fired: seq<TimeEvent>) {
    Remains(e, before, next, ops) && e !in fired
  }

  /** fired[k] is pending when the first k have run, and no other pending timer expires earlier. */
  ghost predicate FiresNext(fired: seq<TimeEvent>, k: nat, before: seq<TimeEvent>, next: nat, ops: seq<Op>)
    requires k < |fired|
  {
    && Pending(fired[k], before, next, ops, fired[..k])
    && forall e | Pending(e, before, next, ops, fired[..k]) :: fired[k].expire <= e.expire
  }

  lemma NothingDone(before: seq<TimeEvent>, next: nat)
    ensures forall e :: e in before <==> Remains(e, before, next, [])
    ensures Creates([]) == 0
  {
  }

  lemma MadeOneMore(e: TimeEvent, next: nat, ops: seq<Op>, op: Op)
    ensures Made(e, ops + [op], next)
            <==> (Made(e, ops, next) && op != Delete(e.id)) || IsNew(e, op, next + Creates(ops))
  {
    assert (ops + [op])[..|ops|] == ops;
    hide Creates, IsNew;
  }

  lemma OneMore(before: seq<TimeEvent>, next: nat, ops: seq<Op>, op: Op)
    ensures Creates(ops + [op]) == Creates(ops) + if op.Create? then 1 else 0
    ensures forall e :: Remains(e, before, next, ops + [op])
                        <==> (Remains(e, before, next, ops) && op != Delete(e.id))
                             || IsNew(e, op, next + Creates(ops))
  {
    assert (ops + [op])[..|ops|] == ops;
    hide Creates, Made, IsNew;
    forall e
      ensures Remains(e, before, next, ops + [op])
              <==> (Remains(e, before, next, ops) && op != Delete(e.id)) || IsNew(e, op, next + Creates(ops))
    {
      MadeOneMore(e, next, ops, op);
    }
  }

  /** What one callback makes after another. */
  lemma {:induction false} MadeByBoth(e: TimeEvent, next: nat, a: seq<Op>, b: seq<Op>)
    ensures Creates(a + b) == Creates(a) + Creates(b)
    ensures Made(e, a + b, next)
            <==> (Made(e, a, next) && Delete(e.id) !in b) || Made(e, b, next + Creates(a))
  {
    if b == [] {
      assert a + b == a;
    } else {
      var last := |b| - 1;
      MadeByBoth(e, next, a, b[..last]);
      assert a + b == a + b[..last] + [b[last]] && b == b[..last] + [b[last]];
      OneMore([], next, a + b[..last], b[last]);
      MadeOneMore(e, next, a + b[..last], b[last]);
      MadeOneMore(e, next + Creates(a), b[..last], b[last]);
      hide Creates, Made, IsNew;
    }
  }

  lemma AfterBoth(before: seq<TimeEvent>, next: nat, a: seq<Op>, b: seq<Op>, e: TimeEvent)
    ensures Creates(a + b) == Creates(a) + Creates(b)
    ensures Remains(e, before, next, a + b)
            <==> (Remains(e, before, next, a) && Delete(e.id) !in b) || Made(e, b, next + Creates(a))
  {
    hide Creates, Made;
    MadeByBoth(e, next, a, b);
  }

  /** How far a pass over the due timers has come: what fired, in order, and what is there now. */
  ghost predicate SoFar(before: seq<TimeEvent>, next: nat, scripts: seq<seq<Op>>, fired: seq<TimeEvent>,
                        events: seq<TimeEvent>, nextNow: nat) {
    && (forall k | 0 <= k < |fired| :: FiresNext(fired, k, before, next, Done(scripts, k)))
    && (forall e :: e in events <==> Pending(e, before, next, Done(scripts, |fired|), fired))
    && nextNow == next + Creates(Done(scripts, |fired|))
  }

  lemma PassStarts(before: seq<TimeEvent>, next: nat, scripts: seq<seq<Op>>)
    ensures SoFar(before, next, scripts, [], before, next)
  {
    NothingDone(before, next);
  }

  lemma FiredInOrder(before: seq<TimeEvent>, next: nat, scripts: seq<seq<Op>>, fired: seq<TimeEvent>,
                     events: seq<TimeEvent>, nextNow: nat, e: TimeEvent)
    requires SoFar(before, next, scripts, fired, events, nextNow)
    requires e in events && forall x | x in events :: e.expire <= x.expire
    ensures forall k | 0 <= k < |fired| + 1 :: FiresNext(fired + [e], k, before, next, Done(scripts, k))
  {
    hide Remains, Done, Creates;
    var more := fired + [e];
    forall k | 0 <= k < |more| ensures FiresNext(more, k, before, next, Done(scripts, k)) {
      assert more[..k] == fired[..k];
      if k < |fired| {
        assert FiresNext(fired, k, before, next, Done(scripts, k));
      } else {
        assert fired[..k] == fired;
      }
    }
  }

  /** The earliest timer e fires and its callback runs. */
  lemma PassGoesOn(before: seq<TimeEvent>, next: nat, scripts: seq<seq<Op>>, fired: seq<TimeEvent>,
                   events: seq<TimeEvent>, nextNow: nat, e: TimeEvent, rest: seq<TimeEvent>, ops: seq<Op>,
                   after: seq<TimeEvent>)
    requires SoFar(before, next, scripts, fired, events, nextNow)
    requires e in events && (forall x | x in events :: e.expire <= x.expire)
    requires forall x :: x in rest <==> x in events && x != e
    requires ops == if |fired| < |scripts| then scripts[|fired|] else []
    requires forall x :: x in after <==> Remains(x, rest, nextNow, ops)
    requires forall f | f in fired + [e] :: f.id < nextNow
    ensures SoFar(before, next, scripts, fired + [e], after, nextNow + Creates(ops))
  {
    hide Remains, Creates, FiresNext;
    FiredInOrder(before, next, scripts, fired, events, nextNow, e);
    var done := Done(scripts, |fired|);
    assert Done(scripts, |fired + [e]|) == done + ops;
    AfterBoth(before, next, done, ops, e);
    forall x ensures x in after <==> Pending(x, before, next, done + ops, fired + [e]) {
      AfterBoth(before, next, done, ops, x);
      assert x in rest <==> Remains(x, before, next, done) && x !in fired + [e];
      RemainsOrMade(x, rest, nextNow, ops);
    }
  }

  lemma PassEnds(before: seq<TimeEvent>, next: nat, scripts: seq<seq<Op>>, fired: seq<TimeEvent>,
                 events: seq<TimeEvent>, nextNow: nat)
    requires SoFar(before, next, scripts, fired, events, nextNow)
    ensures forall k | 0 <= k < |fired| :: FiresNext(fired, k, before, next, Done(scripts, k))
    ensures forall e :: e in events <==> Pending(e, before, next, Done(scripts, |fired|), fired)
    ensures nextNow == next + Creates(Done(scripts, |fired|))
  {
  }

  /** What a callback leaves expires no earlier than it ran, or was there before. */
  lemma LeftLater(rest: seq<TimeEvent>, next: nat, ops: seq<Op>, after: seq<TimeEvent>, now: nat)
    requires forall x :: x in after <==> Remains(x, rest, next, ops)
    requires forall i | 0 <= i < |ops| && ops[i].Create? :: now <= ops[i].at
    ensures forall x | x in after :: x in rest || now <= x.expire
  {
    forall x | x in after ensures x in rest || now <= x.expire {
      MadeLater(x, ops, next, now);
    }
  }

  /** A timer that is made has a new id, so it is not one that fired. */
  lemma RemainsOrMade(x: TimeEvent, before: seq<TimeEvent>, next: nat, ops: seq<Op>)
    ensures Remains(x, before, next, ops) <==> (x in before && Delete(x.id) !in ops) || Made(x, ops, next)
    ensures Made(x, ops, next) ==> x.id >= next
  {
    MadeLater(x, ops, next, 0);
  }

  lemma {:induction false} MadeLater(x: TimeEvent, ops: seq<Op>, next: nat, now: nat)
    requires forall i | 0 <= i < |ops| && ops[i].Create? :: now <= ops[i].at
    ensures Made(x, ops, next) ==> now <= x.expire && x.id >= next
  {
    if ops != [] {
      MadeLater(x, ops[..|ops| - 1], next, now);
    }
  }

  class TimeEvents {
    var timeEvents: seq<TimeEvent>
    /** From an id to its entry. */
    var eventMap: map<nat, TimeEvent>
    var timeEventNextId: nat
    /** The ids of all callbacks run so far. */
    ghost var history: seq<nat>

    /** The index and the multimap describe the same timers; what has fired is in neither. */
    ghost predicate Valid()
      reads this
    {
      && Sorted(timeEvents) && DistinctIds(timeEvents) && timeEventNextId > 0
      && (forall e | e in timeEvents :: e.id in eventMap && eventMap[e.id] == e)
      && (forall id | id in eventMap :: eventMap[id] in timeEvents && eventMap[id].id == id && 0 < id < timeEventNextId)
      && (forall i | 0 <= i < |history| :: history[i] !in eventMap && history[i] < timeEventNextId)
      && (forall i, j | 0 <= i < j < |history| :: history[i] != history[j])
    }

    constructor ()
      ensures Valid() && timeEvents == [] && eventMap == map[] && timeEventNextId == 1 && history == []
    {
      timeEvents, eventMap, timeEventNextId, history := [], map[], 1, [];
    }

    /** A new timer under an id that was never used. */
    method CreateTimeEvent(now: nat, microseconds: nat, cb: nat) returns (id: nat)
      requires Valid()
      modifies this`timeEvents, this`eventMap, this`timeEventNextId
      ensures forall x :: x in timeEvents <==> x in old(timeEvents) || x == TimeEvent(now + microseconds * 1000, id, cb)
      ensures Valid() && id == old(timeEventNextId) && timeEventNextId == id + 1 && id !in old(eventMap)
              && id !in history
      ensures var e := TimeEvent(now + microseconds * 1000, id, cb);
              timeEvents == Insert(old(timeEvents), e) && eventMap == old(eventMap)[id := e]
    {
      hide Sorted, DistinctIds, Insert;
      id := timeEventNextId;
      timeEventNextId := timeEventNextId + 1;
      var event := TimeEvent(now + microseconds * 1000, id, cb);
      InsertKeeps(timeEvents, event);
      timeEvents := Insert(timeEvents, event);
      eventMap := eventMap[id := event];
    }

    /** Removes exactly the timer with this id; an unknown id, an id never given out and 0 change nothing. */
    method DeleteTimeEvent(id: nat)
      requires Valid()
      modifies this`timeEvents, this`eventMap
      ensures Valid() && eventMap == old(eventMap) - {id}
      ensures forall x :: x in timeEvents <==> x in old(timeEvents) && x.id != id
      ensures timeEvents == if id in old(eventMap) then Erase(old(timeEvents), old(eventMap)[id]) else old(timeEvents)
    {
      hide Sorted, DistinctIds, Erase;
      if id >= timeEventNextId || id == 0 {
        return;
      }
      if id !in eventMap {
        return;
      }
      EraseKeeps(timeEvents, eventMap[id]);
      timeEvents := Erase(timeEvents, eventMap[id]);
      eventMap := eventMap - {id};
    }

    /** The body of a callback: exactly what it leaves, and the ids it used up. */
    method RunCallback(ops: seq<Op>)
      requires Valid()
      modifies this`timeEvents, this`eventMap, this`timeEventNextId
      ensures Valid() && timeEventNextId == old(timeEventNextId) + Creates(ops)
      ensures forall e :: e in timeEvents <==> Remains(e, old(timeEvents), old(timeEventNextId), ops)
    {
      hide Valid, Sorted, DistinctIds, Insert, Erase, Remains, Creates;
      NothingDone(timeEvents, timeEventNextId);
      for i := 0 to |ops|
        invariant Valid() && timeEventNextId == old(timeEventNextId) + Creates(ops[..i])
        invariant forall e :: e in timeEvents <==> Remains(e, old(timeEvents), old(timeEventNextId), ops[..i])
      {
        assert ops[..i + 1] == ops[..i] + [ops[i]];
        OneMore(old(timeEvents), old(timeEventNextId), ops[..i], ops[i]);
        match ops[i]
        case Create(at, us, cb) =>
          var _ := CreateTimeEvent(at, us, cb);
        case Delete(id) =>
          DeleteTimeEvent(id);
      }
      assert ops[..|ops|] == ops;
    }

    /** Takes the first timer off both structures. */
    method PopFirst() returns (e: TimeEvent)
      requires Valid() && timeEvents != []
      modifies this`timeEvents, this`eventMap, this`history
      ensures Valid() && e == old(timeEvents)[0] && timeEvents == old(timeEvents)[1..]
              && eventMap == old(eventMap) - {e.id}
      ensures history == old(history) + [e.id]
      ensures forall x | x in timeEvents :: e.expire <= x.expire
      ensures forall x :: x in timeEvents <==> x in old(timeEvents) && x != e
    {
      hide Sorted, DistinctIds;
      e := timeEvents[0];
      RestKeeps(timeEvents);
      assert e in timeEvents && e.id in eventMap;
      timeEvents := timeEvents[1..];
      eventMap := eventMap - {e.id};
      history := history + [e.id];
    }

    /**
     One pass over the due timers, whose callbacks may create and delete timers: scripts[k] is what the
     k-th of them does. Each time the earliest of the timers pending at that moment fires, if it is due;
     afterwards exactly those are left that were pending or created, not deleted since, and did not fire,
     and none of them is due.
     */
    method ProcessTimeEvents(now: nat, scripts: seq<seq<Op>>) returns (processed: nat, ghost fired: seq<TimeEvent>)
      requires Valid() && ClockAdvances(scripts, now)
      modifies this`timeEvents, this`eventMap, this`timeEventNextId, this`history
      ensures Valid() && processed == |fired| && history == old(history) + Ids(fired)
      ensures Sorted(fired) && forall f | f in fired :: f.expire <= now
      ensures forall k | 0 <= k < |fired| ::
                FiresNext(fired, k, old(timeEvents), old(timeEventNextId), Done(scripts, k))
      ensures forall e :: e in timeEvents
                          <==> Pending(e, old(timeEvents), old(timeEventNextId), Done(scripts, |fired|), fired)
      ensures forall e | e in timeEvents :: e.expire > now
      ensures timeEventNextId == old(timeEventNextId) + Creates(Done(scripts, |fired|))
    {
      hide Valid, DistinctIds, SoFar, Made, FiresNext, Creates;
      processed, fired := 0, [];
      var k := 0;
      PassStarts(timeEvents, timeEventNextId, scripts);
      while timeEvents != []
        invariant Valid() && processed == |fired| && history == old(history) + Ids(fired)
        invariant Sorted(fired) && (forall f | f in fired :: f.expire <= now)
        invariant forall e, f | e in timeEvents && f in fired :: f.expire <= e.expire
        invariant k == if processed < |scripts| then processed else |scripts|
        invariant SoFar(old(timeEvents), old(timeEventNextId), scripts, fired, timeEvents, timeEventNextId)
        decreases |scripts| - k, |timeEvents|
      {
        FirstIsLeast();
        if now < timeEvents[0].expire {
          break;
        }
        ghost var events, nextNow := timeEvents, timeEventNextId;
        var e := PopFirst();
        processed := processed + 1;
        SortedSnoc(fired, e);
        IdsSnoc(fired, e);
        FiredIds(old(history), fired + [e]);
        ghost var rest := timeEvents;
        ghost var ops := [];
        NothingDone(rest, nextNow);
        if k < |scripts| {
          ops := scripts[k];
          RunCallback(scripts[k]);
          LeftLater(rest, nextNow, ops, timeEvents, now);
          k := k + 1;
        }
        PassGoesOn(old(timeEvents), old(timeEventNextId), scripts, fired, events, nextNow, e, rest, ops, timeEvents);
        fired := fired + [e];
      }
      PassEnds(old(timeEvents), old(timeEventNextId), scripts, fired, timeEvents, timeEventNextId);
    }

    /** Whatever fired has an id that was given out. */
    lemma FiredIds(history0: seq<nat>, fired: seq<TimeEvent>)
      requires Valid() && history == history0 + Ids(fired)
      ensures forall f | f in fired :: f.id < timeEventNextId
    {
      forall f | f in fired ensures f.id < timeEventNextId {
        var i :| 0 <= i < |fired| && fired[i] == f;
        assert history[|history0| + i] == f.id;
      }
    }

    lemma FirstIsLeast()
      requires Valid() && timeEvents != []
      ensures forall x | x in timeEvents :: timeEvents[0].expire <= x.expire
    {
    }
  }

  function Ids(s: seq<TimeEvent>): seq<nat> {
    seq(|s|, i requires 0 <= i < |s| => s[i].id)
  }

  lemma IdsSnoc(s: seq<TimeEvent>, e: TimeEvent)
    ensures Ids(s + [e]) == Ids(s) + [e.id]
  {
  }

  lemma SortedSnoc(s: seq<TimeEvent>, e: TimeEvent)
    requires Sorted(s) && forall f | f in s :: f.expire <= e.expire
    ensures Sorted(s + [e])
  {
  }

  /** The clock a callback reads is not behind the one the pass started with. */
  ghost predicate ClockAdvances(scripts: seq<seq<Op>>, now: nat) {
    forall k, i | 0 <= k < |scripts| && 0 <= i < |scripts[k]| && scripts[k][i].Create? :: now <= scripts[k][i].at
  }
}
