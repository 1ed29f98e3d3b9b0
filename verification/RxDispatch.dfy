/**
 The receive half of the dispatcher: completions to sockets, receive buffers back to the shared queue
 (hardware_async/rdma/RDMAStack.cc 159-169, 198-237, 316-348; hardware_async/rdma/Infiniband.cc 987-1033).
 The buffer pool is the limited one: when it is empty there is no buffer to post.
 */
module RxDispatch {
  import opened Wrappers
  import opened Bytes

  /** A receive completion; ok: its status is success. */
  datatype Wc = Wc(chunk: nat, qpn: nat, ok: bool)

  datatype Qp = Qp(conn: nat, dead: bool)

  /** `get_conn_lockless`. */
  function ConnOf(qps: map<nat, Qp>, qpn: nat): Option<nat> {
    if qpn in qps && !qps[qpn].dead then Some(qps[qpn].conn) else None
  }

  /** The socket a completion is passed to. */
  function Route(qps: map<nat, Qp>, w: Wc): Option<nat> {
    if w.ok then ConnOf(qps, w.qpn) else None
  }

  /** The completions of one socket, in order. */
  function For(qps: map<nat, Qp>, ws: seq<Wc>, conn: nat): seq<nat> {
    if ws == [] then []
    else For(qps, ws[..|ws| - 1], conn) + if Route(qps, ws[|ws| - 1]) == Some(conn) then [ws[|ws| - 1].chunk] else []
  }

  /** The buffers that go straight back to the pool: a failed completion, or nobody to give it to. */
  function Unrouted(qps: map<nat, Qp>, ws: seq<Wc>): seq<nat> {
    if ws == [] then []
    else Unrouted(qps, ws[..|ws| - 1]) + if Route(qps, ws[|ws| - 1]).None? then [ws[|ws| - 1].chunk] else []
  }

  function Routed(qps: map<nat, Qp>, ws: seq<Wc>): seq<nat> {
    if ws == [] then []
    else Routed(qps, ws[..|ws| - 1]) + if Route(qps, ws[|ws| - 1]).Some? then [ws[|ws| - 1].chunk] else []
  }

  /** The sockets that fault: they are connected and a completion of theirs failed. */
  function Faulted(qps: map<nat, Qp>, connected: set<nat>, ws: seq<Wc>): (r: set<nat>)
    ensures forall c :: c in r <==> c in connected && exists w :: w in ws && !w.ok && ConnOf(qps, w.qpn) == Some(c)
  {
    if ws == [] then {}
    else
      var w := ws[|ws| - 1];
      assert ws == ws[..|ws| - 1] + [w];
      Faulted(qps, connected, ws[..|ws| - 1])
      + if !w.ok && ConnOf(qps, w.qpn).Some? && ConnOf(qps, w.qpn).value in connected
          then {ConnOf(qps, w.qpn).value} else {}
  }

  lemma OneMore(qps: map<nat, Qp>, connected: set<nat>, ws: seq<Wc>, i: nat)
    requires i < |ws|
    ensures var r := Route(qps, ws[i]);
            && (forall c: nat ::
                  For(qps, ws[..i + 1], c) == For(qps, ws[..i], c) + if r == Some(c) then [ws[i].chunk] else [])
            && Unrouted(qps, ws[..i + 1]) == Unrouted(qps, ws[..i]) + (if r.None? then [ws[i].chunk] else [])
            && Faulted(qps, connected, ws[..i + 1]) == Faulted(qps, connected, ws[..i])
                 + (if !ws[i].ok && ConnOf(qps, ws[i].qpn).Some? && ConnOf(qps, ws[i].qpn).value in connected
                    then {ConnOf(qps, ws[i].qpn).value} else {})
  {
    assert ws[..i + 1][..i] == ws[..i];
  }

  lemma GiveBack(p: seq<nat>, s: seq<nat>, h: multiset<nat>, chunk: nat)
    requires chunk in h
    ensures multiset(p + [chunk]) + multiset(s) + (h - multiset{chunk}) == multiset(p) + multiset(s) + h
  {
    assert multiset(p + [chunk]) == multiset(p) + multiset{chunk};
    assert h == (h - multiset{chunk}) + multiset{chunk};
  }

  /** The buffers before and after a poll. */
  lemma Ledger(pool0: seq<nat>, srq0: seq<nat>, chunks: seq<nat>, pool1: seq<nat>, srq1: seq<nat>,
               routed: seq<nat>, unrouted: seq<nat>, held: multiset<nat>)
    requires chunks <= srq0
    requires multiset(pool1) + multiset(srq1) == multiset(pool0) + multiset(srq0[|chunks|..])
    requires multiset(routed) + multiset(unrouted) == multiset(chunks)
    ensures multiset(pool1 + unrouted) + multiset(srq1) + (held + multiset(routed)) == multiset(pool0)
            + multiset(srq0) + held
  {
    assert srq0 == chunks + srq0[|chunks|..];
    var p0, r0, c, p1, s1, a, b :=
      multiset(pool0), multiset(srq0[|chunks|..]), multiset(chunks), multiset(pool1), multiset(srq1),
          multiset(routed), multiset(unrouted);
    assert multiset(srq0) == c + r0 && multiset(pool1 + unrouted) == p1 + b;
    assert (p1 + b) + s1 + (held + a) == (p1 + s1) + (a + b) + held;
    assert (p0 + r0) + c + held == p0 + (c + r0) + held;
  }

  lemma NothingYet(qps: map<nat, Qp>, connected: set<nat>, ws: seq<Wc>)
    ensures Unrouted(qps, ws[..0]) == [] && Faulted(qps, connected, ws[..0]) == {}
            && forall c :: For(qps, ws[..0], c) == []
  {
  }

  function ChunksOf(ws: seq<Wc>): seq<nat> {
    if ws == [] then [] else ChunksOf(ws[..|ws| - 1]) + [ws[|ws| - 1].chunk]
  }

  /** Every completed buffer goes to a socket or to the pool, and not to both. */
  lemma {:induction false} RoutingPartitions(qps: map<nat, Qp>, ws: seq<Wc>)
    ensures multiset(Routed(qps, ws)) + multiset(Unrouted(qps, ws)) == multiset(ChunksOf(ws))
  {
    if ws != [] {
      RoutingPartitions(qps, ws[..|ws| - 1]);
    }
  }

  // ---------------------------------------------------------------- what routing means, read off the table

  /** A successful completion for a queue pair that is registered and alive belongs to that pair's socket. */
  predicate Belongs(qps: map<nat, Qp>, w: Wc, conn: nat) {
    w.ok && w.qpn in qps && !qps[w.qpn].dead && qps[w.qpn].conn == conn
  }

  /** chunks are the buffers of the completions that belong to the socket, all of them, in their order. */
  ghost predicate InOrder(qps: map<nat, Qp>, ws: seq<Wc>, conn: nat, chunks: seq<nat>) {
    exists at :: PickedAt(qps, ws, conn, chunks, at)
  }

  /** They completed at these places. */
  ghost predicate PickedAt(qps: map<nat, Qp>, ws: seq<Wc>, conn: nat, chunks: seq<nat>, at: seq<nat>) {
    && |at| == |chunks|
    && (forall k | 0 <= k < |at| :: at[k] < |ws| && Belongs(qps, ws[at[k]], conn) && chunks[k] == ws[at[k]].chunk)
    && (forall j, k | 0 <= j < k < |at| :: at[j] < at[k])
    && (forall i | 0 <= i < |ws| && Belongs(qps, ws[i], conn) :: i in at)
  }

  lemma PickedMore(qps: map<nat, Qp>, ws: seq<Wc>, w: Wc, conn: nat, chunks: seq<nat>, at: seq<nat>)
    requires PickedAt(qps, ws, conn, chunks, at)
    ensures var more := Belongs(qps, w, conn);
            PickedAt(qps, ws + [w], conn, if more then chunks + [w.chunk] else chunks,
                     if more then at + [|ws|] else at)
  {
    hide Belongs;
    var more := Belongs(qps, w, conn);
    var at2 := if more then at + [|ws|] else at;
    var ws2 := ws + [w];
    forall i | 0 <= i < |ws2| && Belongs(qps, ws2[i], conn) ensures i in at2 {
      if i < |ws| {
        assert ws2[i] == ws[i];
        assert i in at;
      } else {
        assert at2[|at|] == i;
      }
    }
  }

  lemma {:induction false} ForIsInOrder(qps: map<nat, Qp>, ws: seq<Wc>, conn: nat) returns (at: seq<nat>)
    ensures PickedAt(qps, ws, conn, For(qps, ws, conn), at)
  {
    hide PickedAt;
    if ws == [] {
      at := [];
      NothingPicked(qps, conn);
    } else {
      var before, w := ws[..|ws| - 1], ws[|ws| - 1];
      var picked := ForIsInOrder(qps, before, conn);
      PickedMore(qps, before, w, conn, For(qps, before, conn), picked);
      assert ws == before + [w];
      assert Belongs(qps, w, conn) <==> Route(qps, w) == Some(conn);
      assert For(qps, before, conn) + [] == For(qps, before, conn);
      at := if Belongs(qps, w, conn) then picked + [|before|] else picked;
    }
  }

  lemma NothingPicked(qps: map<nat, Qp>, conn: nat)
    ensures PickedAt(qps, [], conn, [], [])
  {
  }

  /** Exactly the buffers that belong to no socket go back, as often as they completed. */
  lemma {:induction false} UnroutedMeans(qps: map<nat, Qp>, ws: seq<Wc>, i: nat)
    requires i < |ws|
    ensures (forall conn :: !Belongs(qps, ws[i], conn)) ==> ws[i].chunk in Unrouted(qps, ws)
  {
    if i < |ws| - 1 {
      UnroutedMeans(qps, ws[..|ws| - 1], i);
    } else if forall conn :: !Belongs(qps, ws[i], conn) {
      if ws[i].ok && ws[i].qpn in qps && !qps[ws[i].qpn].dead {
        assert Belongs(qps, ws[i], qps[ws[i].qpn].conn);
      }
    }
  }

  lemma IsInOrder(qps: map<nat, Qp>, ws: seq<Wc>, conn: nat, chunks: seq<nat>, at: seq<nat>)
    requires PickedAt(qps, ws, conn, chunks, at)
    ensures InOrder(qps, ws, conn, chunks)
  {
  }

  /** The result of the routing loop, said without the functions it follows. */
  lemma RoutedWhere(qps: map<nat, Qp>, ws: seq<Wc>, polled: map<nat, seq<nat>>, connected: set<nat>, faulted: set<nat>)
    requires forall c ::
               (c in polled <==> For(qps, ws, c) != []) && (c in polled ==> polled[c] == For(qps, ws, c))
    requires faulted == Faulted(qps, connected, ws)
    ensures forall c :: c in polled ==> InOrder(qps, ws, c, polled[c])
    ensures forall i | 0 <= i < |ws| :: ws[i].ok && ws[i].qpn in qps && !qps[ws[i].qpn].dead ==>
              var c := qps[ws[i].qpn].conn; c in polled && ws[i].chunk in polled[c]
    ensures forall i | 0 <= i < |ws| :: !ws[i].ok || ws[i].qpn !in qps || qps[ws[i].qpn].dead ==>
              ws[i].chunk in Unrouted(qps, ws)
    ensures forall c ::
              c in faulted <==>
                c in connected
                && exists w :: w in ws && !w.ok && w.qpn in qps && !qps[w.qpn].dead && qps[w.qpn].conn == c
  {
    hide For, Unrouted, InOrder;
    forall c | c in polled ensures InOrder(qps, ws, c, polled[c]) {
      var at := ForIsInOrder(qps, ws, c);
      IsInOrder(qps, ws, c, polled[c], at);
    }
    forall i | 0 <= i < |ws|
      ensures ws[i].ok && ws[i].qpn in qps && !qps[ws[i].qpn].dead ==>
                var c := qps[ws[i].qpn].conn; c in polled && ws[i].chunk in polled[c]
      ensures !ws[i].ok || ws[i].qpn !in qps || qps[ws[i].qpn].dead ==> ws[i].chunk in Unrouted(qps, ws)
    {
      UnroutedMeans(qps, ws, i);
      if ws[i].ok && ws[i].qpn in qps && !qps[ws[i].qpn].dead {
        var c := qps[ws[i].qpn].conn;
        assert Belongs(qps, ws[i], c);
        var at := ForIsInOrder(qps, ws, c);
        assert i in at;
        var k :| 0 <= k < |at| && at[k] == i;
        assert For(qps, ws, c)[k] == ws[i].chunk;
      }
    }
  }

  class RDMADispatcher {
    /** How many receives are meant to be posted. */
    const depth: nat
    /** Free buffers. */
    var pool: seq<nat>
    /** Posted buffers, in the order the hardware fills them. */
    var srq: seq<nat>
    var postBacklog: nat
    /** Buffers that sockets are reading. */
    ghost var held: multiset<nat>
    var qpConns: map<nat, Qp>
    var numQpConn: nat
    var deadQueuePairs: seq<nat>
    var numDeadQueuePair: nat

    /** The backlog is exactly what the queue is short of. */
    ghost predicate Valid()
      reads this
    {
      |srq| + postBacklog == depth && numQpConn == |qpConns.Keys| && numDeadQueuePair == |deadQueuePairs|
    }

    /** While the queue is short, no buffer lies idle. */
    ghost predicate NoneIdle()
      reads this
    {
      postBacklog > 0 ==> pool == []
    }

    ghost function All(): multiset<nat>
      reads this
    {
      multiset(pool) + multiset(srq) + held
    }

    /** At the start as many receives are posted as are wanted and there are buffers for. */
    constructor (want: nat, buffers: seq<nat>)
      ensures Valid() && NoneIdle() && depth == Min(want, |buffers|) && qpConns == map[] && deadQueuePairs == []
      ensures All() == multiset(buffers) && postBacklog == 0 && srq == buffers[..depth] && pool == buffers[depth..]
    {
      var n := Min(want, |buffers|);
      depth := n;
      pool, srq, postBacklog, held := buffers[n..], buffers[..n], 0, multiset{};
      qpConns, numQpConn, deadQueuePairs, numDeadQueuePair := map[], 0, [], 0;
      assert buffers == buffers[..n] + buffers[n..];
    }

    /** `post_chunks_to_srq`: as many as asked for, or as there are. */
    method PostChunksToSrq(num: nat) returns (i: nat)
      modifies this`pool, this`srq
      ensures i == Min(num, |old(pool)|)
      ensures pool == old(pool)[..|old(pool)| - i] && |srq| == |old(srq)| + i && old(srq) <= srq
      ensures multiset(pool) + multiset(srq) == old(multiset(pool) + multiset(srq))
    {
      i := 0;
      assert pool == pool[..|pool|];
      while i < num
        invariant i <= num && i <= |old(pool)| && pool == old(pool)[..|old(pool)| - i]
        invariant |srq| == |old(srq)| + i && old(srq) <= srq
        invariant multiset(pool) + multiset(srq) == old(multiset(pool) + multiset(srq))
      {
        if pool == [] {
          break;
        }
        var chunk := pool[|pool| - 1];
        assert pool == pool[..|pool| - 1] + [chunk];
        pool := pool[..|pool| - 1];
        srq := srq + [chunk];
        i := i + 1;
      }
    }

    /** A socket is done with a buffer: the backlog gets it, and whatever else lies in the pool. */
    method PostChunkToPool(chunk: nat)
      requires Valid() && chunk in held
      modifies this`pool, this`srq, this`postBacklog, this`held
      ensures Valid() && NoneIdle() && All() == old(All()) && held == old(held) - multiset{chunk}
      ensures postBacklog == old(postBacklog) - Min(old(postBacklog), |old(pool)| + 1)
    {
      GiveBack(pool, srq, held, chunk);
      held := held - multiset{chunk};
      pool := pool + [chunk];
      if postBacklog > 0 {
        var n := PostChunksToSrq(postBacklog);
        postBacklog := postBacklog - n;
      }
    }

    /**
     The receive part of `polling`: the oldest posted buffers were filled. Each socket gets its own
     completions in order, everything else goes back to the pool, and no buffer is lost. But what goes
     back this way does not serve the backlog: afterwards buffers lie idle beside a short queue exactly
     when something went back and the backlog is not zero.
     */
    method PollRx(ws: seq<Wc>, connected: set<nat>) returns (polled: map<nat, seq<nat>>, faulted: set<nat>)
      requires Valid() && |ws| <= |srq| && ChunksOf(ws) == srq[..|ws|]
      modifies this`pool, this`srq, this`postBacklog, this`held
      ensures Valid() && All() == old(All())
      ensures postBacklog == old(postBacklog) + |ws| - Min(|ws|, |old(pool)|)
      ensures srq == old(srq)[|ws|..] + srq[|old(srq)| - |ws|..] && |srq| == |old(srq)| - |ws| + Min(|ws|, |old(pool)|)
      ensures forall c ::
                (c in polled <==> For(qpConns, ws, c) != []) && (c in polled ==> polled[c] == For(qpConns, ws, c))
      ensures held == old(held) + multiset(Routed(qpConns, ws))
      ensures pool == old(pool)[..|old(pool)| - Min(|ws|, |old(pool)|)] + Unrouted(qpConns, ws)
      ensures forall c :: c in polled ==> InOrder(qpConns, ws, c, polled[c])
      ensures forall i | 0 <= i < |ws| :: ws[i].ok && ws[i].qpn in qpConns && !qpConns[ws[i].qpn].dead ==>
                var c := qpConns[ws[i].qpn].conn; c in polled && ws[i].chunk in polled[c]
      ensures forall i | 0 <= i < |ws| :: !ws[i].ok || ws[i].qpn !in qpConns || qpConns[ws[i].qpn].dead ==>
                ws[i].chunk in pool
      ensures forall c ::
                c in faulted <==>
                  c in connected
                  && exists w :: w in ws && !w.ok && w.qpn in qpConns && !qpConns[w.qpn].dead
                                 && qpConns[w.qpn].conn == c
      ensures old(NoneIdle()) ==> (NoneIdle() <==> Unrouted(qpConns, ws) == [] || postBacklog == 0)
    {
      hide For, Unrouted, Routed, Faulted, ChunksOf, InOrder;
      ghost var pool0, srq0 := pool, srq;
      srq := srq[|ws|..];
      var posted := PostChunksToSrq(|ws|);
      postBacklog := postBacklog + |ws| - posted;
      ghost var pool1 := pool;
      polled, faulted := RouteAll(ws, connected);
      RoutedWhere(qpConns, ws, polled, connected, faulted);
      RoutingPartitions(qpConns, ws);
      held := held + multiset(Routed(qpConns, ws));
      Ledger(pool0, srq0, srq0[..|ws|], pool1, srq, Routed(qpConns, ws), Unrouted(qpConns, ws), old(held));
    }

    method RouteAll(ws: seq<Wc>, connected: set<nat>) returns (polled: map<nat, seq<nat>>, faulted: set<nat>)
      modifies this`pool
      ensures forall c ::
                (c in polled <==> For(qpConns, ws, c) != []) && (c in polled ==> polled[c] == For(qpConns, ws, c))
      ensures pool == old(pool) + Unrouted(qpConns, ws) && faulted == Faulted(qpConns, connected, ws)
    {
      hide For, Unrouted, Faulted;
      polled, faulted := map[], {};
      NothingYet(qpConns, connected, ws);
      var i := 0;
      while i < |ws|
        invariant i <= |ws| && pool == old(pool) + Unrouted(qpConns, ws[..i])
                  && faulted == Faulted(qpConns, connected, ws[..i])
        invariant forall c :: (c in polled <==> For(qpConns, ws[..i], c) != []) && (c in polled ==>
                  polled[c] == For(qpConns, ws[..i], c))
      {
        OneMore(qpConns, connected, ws, i);
        var w := ws[i];
        var conn := ConnOf(qpConns, w.qpn);
        if w.ok {
          if conn.None? {
            pool := pool + [w.chunk];
          } else {
            polled := polled[conn.value := (if conn.value in polled then polled[conn.value] else []) + [w.chunk]];
          }
        } else {
          if conn.Some? && conn.value in connected {
            faulted := faulted + {conn.value};
          }
          pool := pool + [w.chunk];
        }
        i := i + 1;
      }
      assert ws[..i] == ws;
    }

    method RegisterQp(qpn: nat, conn: nat)
      requires Valid() && qpn !in qpConns
      modifies this`qpConns, this`numQpConn
      ensures Valid() && qpConns == old(qpConns)[qpn := Qp(conn, false)]
    {
      qpConns := qpConns[qpn := Qp(conn, false)];
      numQpConn := numQpConn + 1;
      assert qpConns.Keys == old(qpConns.Keys) + {qpn};
    }

    /** The pair leaves the table and waits to be deleted; an unknown number changes nothing. */
    method EraseQpnLockless(qpn: nat)
      requires Valid()
      modifies this`qpConns, this`numQpConn, this`deadQueuePairs, this`numDeadQueuePair
      ensures Valid() && qpConns == old(qpConns) - {qpn}
      ensures deadQueuePairs == old(deadQueuePairs) + if qpn in old(qpConns) then [qpn] else []
    {
      if qpn !in qpConns {
        return;
      }
      numDeadQueuePair := numDeadQueuePair + 1;
      deadQueuePairs := deadQueuePairs + [qpn];
      qpConns := qpConns - {qpn};
      numQpConn := numQpConn - 1;
      assert qpConns.Keys == old(qpConns.Keys) - {qpn};
    }
  }

  /**
   Taken to its end: all posted buffers complete for a queue pair that is gone. Every buffer is then
   free, not one is posted, and no socket holds a buffer that it could give back. As nothing is posted
   no poll returns a completion, so however often the dispatcher polls, nothing serves the backlog.
   */
  method ReceiveStarves(polls: nat) returns (free: seq<nat>, posted: seq<nat>, backlog: nat, ghost held: multiset<nat>)
    ensures free == [10] && posted == [] && backlog == 1 && held == multiset{}
  {
    hide Unrouted, ChunksOf, For, Routed, Faulted, ConnOf, Route;
    var ws := [Wc(10, 5, true)];
    Gone(ws);
    var d := new RDMADispatcher(1, [10]);
    assert d.srq == d.srq[..1] == [10];
    var polled, faulted := d.PollRx(ws, {});
    assert d.pool == [] + [10];
    NothingCompleted(d.qpConns);
    for i := 0 to polls
      invariant d.Valid() && d.qpConns == map[]
      invariant d.pool == [10] && d.srq == [] && d.postBacklog == 1 && d.held == multiset{}
    {
      polled, faulted := d.PollRx([], {});
    }
    free, posted, backlog, held := d.pool, d.srq, d.postBacklog, d.held;
  }

  lemma NothingCompleted(qps: map<nat, Qp>)
    ensures ChunksOf([]) == [] && Unrouted(qps, []) == [] && Routed(qps, []) == []
  {
  }

  lemma Gone(ws: seq<Wc>)
    requires ws == [Wc(10, 5, true)]
    ensures ChunksOf(ws) == [10] && Unrouted(map[], ws) == [10] && Routed(map[], ws) == []
  {
    assert ws[..0] == [];
  }
}
