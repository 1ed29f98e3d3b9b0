/**
 The connection object itself: the queue loops of
 hardware_async/rdma/backed_RDMAReliableConnected.cc and RDMAReliableConnected.h, each proved to do
 what the value function of the same name in Endpoints says.
 */
module Connections {
  import opened Wrappers
  import opened SendQueue
  import E = Endpoints
  import S = Session

  /** n rounds of the write loop. */
  function WriteMany(e: E.Endpoint, n: nat): E.Endpoint {
    if n == 0 then e else E.WriteOne(WriteMany(e, n - 1))
  }

  /** The data packets of the messages that were appended to `sent` after the first k. */
  function DataOf(sent: seq<Msg>, k: nat): seq<S.Packet>
    requires k <= |sent|
  {
    seq(|sent| - k, i requires 0 <= i < |sent| - k => S.Data(sent[k + i].id, sent[k + i].seqNo))
  }

  /** After n sends the socket was full, or can_write had changed. */
  predicate Stopped(room: seq<int>, stays: seq<bool>, n: nat) {
    0 < n && ((n <= |room| && room[n - 1] > 0) || (n <= |stays| && !stays[n - 1]))
  }

  /** The n-th send was made and failed. */
  predicate SendFailed(room: seq<int>, n: nat) {
    0 < n <= |room| && room[n - 1] < 0
  }

  /** Bytes that the socket has not taken: of the last of n sends, or from before if there was none. */
  predicate BytesLeft(room: seq<int>, n: nat, before: bool) {
    if n == 0 then before else n <= |room| && room[n - 1] > 0
  }

  lemma ResetInTwo(e: E.Endpoint, e1: E.Endpoint, e2: E.Endpoint)
    requires e1 == e.(outQ := map[], sent := [], refs := e.refs - Ids(e.sent) - Queued(e.outQ))
    requires e2 == e1.(log := [], outSeq := 0, inSeq := 0, connectSeq := 0, ackLeft := 0, onceReady := false)
    ensures e2 == E.WasReset(e)
  {
    hide Ids, Queued;
  }

  lemma NothingWritten(e: E.Endpoint)
    ensures WriteMany(e, 0) == e && DataOf(e.sent, |e.sent|) == []
  {
  }

  class Connection {
    const policy: E.Policy
    var phase: E.Phase
    var wire: Option<nat>
    var replacing: bool
    var onceReady: bool
    var hardReset: bool
    var outQ: OutQ
    var sent: seq<Msg>
    var outSeq: nat
    var inSeq: nat
    var ackLeft: nat
    var connectSeq: nat
    var globalSeq: nat
    var peerGlobalSeq: nat
    var counter: nat
    ghost var refs: multiset<nat>
    ghost var accepted: seq<nat>
    ghost var log: seq<nat>
    ghost var finished: seq<nat>
    ghost var dispatched: seq<nat>

    ghost function View(): E.Endpoint
      reads this
    {
      E.Endpoint(phase, wire, replacing, onceReady, hardReset, outQ, sent, outSeq, inSeq, ackLeft,
                 connectSeq, globalSeq, peerGlobalSeq, counter, refs, accepted, log, finished, dispatched)
    }

    constructor (policy: E.Policy)
      ensures this.policy == policy && View() == E.NO_ENDPOINT
    {
      this.policy := policy;
      phase, wire, replacing, onceReady, hardReset := E.Absent, None, false, false, false;
      outQ, sent, outSeq, inSeq, ackLeft := map[], [], 0, 0, 0;
      connectSeq, globalSeq, peerGlobalSeq, counter := 0, 0, 0, 0;
      refs, accepted, log, finished, dispatched := multiset{}, [], [], [], [];
    }

    method SendMessage(p: nat, id: nat)
      modifies this
      ensures View() == E.SendMessage(old(View()), p, id)
    {
      if !phase.Closed? {
        outQ := outQ[p := ListAt(outQ, p) + [Msg(id, 0)]];
        refs, accepted := refs + multiset{id}, accepted + [id];
      }
    }

    /** `_get_next_outgoing`: walks down the priorities, dropping lists that are empty. */
    method GetNextOutgoing() returns (m: Option<Msg>)
      modifies this`outQ
      ensures (m, outQ) == NextOutgoing(old(outQ))
    {
      m := None;
      while m.None? && outQ != map[]
        invariant m.None? ==> NextOutgoing(outQ) == NextOutgoing(old(outQ))
        invariant m.Some? ==> (m, outQ) == NextOutgoing(old(outQ))
        decreases m.None?, |outQ|
      {
        var p := TopPriority(outQ);
        ghost var before := outQ;
        if outQ[p] != [] {
          m := Some(outQ[p][0]);
          outQ := outQ[p := outQ[p][1..]];
        }
        if outQ[p] == [] {
          outQ := outQ - {p};
          assert m.Some? ==> outQ == before - {p};
        }
      }
    }

    /** `requeue_sent`: pops the sent list from its back onto the front of the highest list. */
    method RequeueSent()
      requires |sent| <= outSeq
      modifies this`outQ, this`sent, this`outSeq
      ensures View() == E.RequeueSent(old(View()))
      ensures outQ == Requeue(old(outQ), old(sent)) && sent == [] && outSeq == old(outSeq) - |old(sent)|
    {
      if sent == [] {
        return;
      }
      var rq := ListAt(outQ, HIGHEST);
      while sent != []
        invariant sent <= old(sent) && |sent| <= outSeq && outQ == old(outQ)
        invariant rq == old(sent)[|sent|..] + ListAt(old(outQ), HIGHEST)
        invariant outSeq == old(outSeq) - (|old(sent)| - |sent|)
        decreases |sent|
      {
        var m := sent[|sent| - 1];
        sent := sent[..|sent| - 1];
        rq := [m] + rq;
        outSeq := outSeq - 1;
      }
      outQ := outQ[HIGHEST := rq];
      assert rq == old(sent) + ListAt(old(outQ), HIGHEST);
    }

    /** The loop of `discard_requeued_up_to`: what stays of the list and how many messages left it. */
    static method DropReplays(l: seq<Msg>, seqNo: nat) returns (rq: seq<Msg>, count: nat)
      ensures count == DiscardCount(l, seqNo) && rq == l[count..]
    {
      rq, count := l, 0;
      while rq != [] && rq[0].seqNo != 0 && rq[0].seqNo <= seqNo
        invariant count <= |l| && rq == l[count..]
        invariant DiscardCount(l, seqNo) == count + DiscardCount(rq, seqNo)
        decreases |rq|
      {
        rq := rq[1..];
        count := count + 1;
      }
    }

    /** `discard_requeued_up_to`: drops from the front of the highest list what the peer already has. */
    method DiscardRequeuedUpTo(seqNo: nat)
      modifies this`outQ, this`outSeq, this`refs, this`finished
      ensures outQ == Discard(old(outQ), seqNo)
      ensures var l := old(ListAt(outQ, HIGHEST));
              var n := DiscardCount(l, seqNo);
              && outSeq == old(outSeq) + n
              && refs == old(refs) - Ids(l[..n]) && finished == old(finished) + E.IdList(l[..n])
    {
      hide Ids, E.IdList;
      var l := ListAt(outQ, HIGHEST);
      var rq, count := DropReplays(l, seqNo);
      if HIGHEST in outQ {
        outQ := if rq == [] then outQ - {HIGHEST} else outQ[HIGHEST := rq];
      }
      outSeq := outSeq + count;
      refs, finished := refs - Ids(l[..count]), finished + E.IdList(l[..count]);
    }

    /** `handle_ack`: trims the sent list. */
    method HandleAck(seqNo: nat)
      modifies this`sent, this`refs, this`finished
      ensures var n := AckCount(old(sent), seqNo);
              && sent == old(sent)[n..]
              && refs == old(refs) - Ids(old(sent)[..n]) && finished == old(finished) + E.IdList(old(sent)[..n])
    {
      hide Ids;
      ghost var k := 0;
      while sent != [] && sent[0].seqNo <= seqNo
        invariant 0 <= k <= |old(sent)| && sent == old(sent)[k..]
        invariant AckCount(old(sent), seqNo) == k + AckCount(sent, seqNo)
        modifies this`sent
        decreases |sent|
      {
        sent := sent[1..];
        k := k + 1;
      }
      refs, finished := refs - Ids(old(sent)[..k]), finished + E.IdList(old(sent)[..k]);
    }

    /** One round of the write loop: the message goes on `sent` before it gets its number. */
    method WriteMessage() returns (packet: Option<S.Packet>)
      modifies this`outQ, this`sent, this`outSeq, this`log
      ensures View() == E.WriteOne(old(View()))
      ensures packet.None? <==> NextOutgoing(old(outQ)).0.None?
      ensures packet.Some? ==> packet.value.Data? && packet.value.seqNo == outSeq == old(outSeq) + 1
      ensures packet.Some? ==> sent == old(sent) + [Msg(packet.value.id, packet.value.seqNo)]
      ensures outQ == NextOutgoing(old(outQ)).1
    {
      hide NextOutgoing;
      var m := GetNextOutgoing();
      if m.None? {
        return None;
      }
      outSeq := outSeq + 1;
      sent := sent + [Msg(m.value.id, outSeq)];
      if m.value.seqNo == 0 {
        log := log + [m.value.id];
      }
      packet := Some(S.Data(m.value.id, outSeq));
    }

    /**
     The loop of `handle_write`. `room` gives the result of each send: a positive value means the
     socket is full, a negative one that it failed. `stays` tells whether can_write is still CANWRITE
     after it. Packets leave in the order of their numbers; the loop goes on past a send exactly if it
     went through, can_write stays and something is queued.
     */
    method WriteQueued(room: seq<int>, stays: seq<bool>) returns (packets: seq<S.Packet>, failed: bool)
      requires phase.Open? && |sent| <= outSeq && NoEmptyList(outQ)
      modifies this`outQ, this`sent, this`outSeq, this`log
      ensures View() == WriteMany(old(View()), |packets|)
      ensures |sent| == |old(sent)| + |packets| <= outSeq
      ensures packets == DataOf(sent, |old(sent)|)
      ensures forall i | 0 <= i < |packets| :: packets[i].Data? && packets[i].seqNo == old(outSeq) + i + 1
      ensures failed <==> 0 < |packets| <= |room| && room[|packets| - 1] < 0
      ensures !failed ==> outQ == map[] || Stopped(room, stays, |packets|)
      ensures forall i | 0 <= i < |packets| - 1 :: (i < |room| ==> room[i] == 0) && (i < |stays| ==> stays[i])
    {
      hide NextOutgoing, E.WriteOne, E.Fault;
      packets, failed := [], false;
      ghost var start := View();
      var stop := false;
      while !stop && !failed && outQ != map[]
        invariant |sent| == |start.sent| + |packets| <= outSeq
        invariant outSeq == start.outSeq + |packets| && NoEmptyList(outQ)
        invariant View() == WriteMany(start, |packets|)
        invariant packets == DataOf(sent, |start.sent|)
        invariant forall i | 0 <= i < |packets| :: packets[i].Data? && packets[i].seqNo == start.outSeq + i + 1
        invariant failed <==> 0 < |packets| <= |room| && room[|packets| - 1] < 0
        invariant stop && !failed <==> !failed && Stopped(room, stays, |packets|)
        invariant forall i | 0 <= i < |packets| - 1 :: (i < |room| ==> room[i] == 0) && (i < |stays| ==> stays[i])
        decreases QueueLength(outQ)
      {
        NextOutgoingShrinks(outQ);
        NextOutgoingOfWindow(outQ);
        var pk := WriteMessage();
        packets := packets + [pk.value];
        var r := if |packets| <= |room| then room[|packets| - 1] else 0;
        failed := r < 0;
        stop := r > 0 || (|packets| <= |stays| && !stays[|packets| - 1]);
      }
    }

    /**
     `handle_write` while can_write is CANWRITE: the queue, then one acknowledgement of everything
     received so far. `before` tells whether bytes of an earlier send are still to go, `flushed` whether
     the last send works, which is made if there is an acknowledgement or anything left to go. A failed
     send faults the connection.
     */
    method WriteAndAck(room: seq<int>, stays: seq<bool>, before: bool, flushed: bool)
      returns (packets: seq<S.Packet>, ghost n: nat, failed: bool)
      requires phase.Open? && |sent| <= outSeq && NoEmptyList(outQ)
      modifies this
      ensures n <= |packets| && |old(sent)| <= |WriteMany(old(View()), n).sent|
      ensures packets[..n] == DataOf(WriteMany(old(View()), n).sent, |old(sent)|)
      ensures forall i | 0 <= i < n :: packets[i].Data? && packets[i].seqNo == old(outSeq) + i + 1
      ensures forall i | 0 <= i < n - 1 :: (i < |room| ==> room[i] == 0) && (i < |stays| ==> stays[i])
      ensures packets[n..] == if !SendFailed(room, n) && old(ackLeft) > 0 then [S.Ack(old(inSeq))] else []
      ensures var e := WriteMany(old(View()), n);
              && (failed <==>
                    SendFailed(room, n)
                    || (!flushed && (old(ackLeft) > 0 || e.outQ != map[] || BytesLeft(room, n, before))))
              && (SendFailed(room, n) || e.outQ == map[] || Stopped(room, stays, n))
              && |e.sent| <= e.outSeq
              && View() == if !failed then e.(ackLeft := 0)
                           else E.Fault(if SendFailed(room, n) then e else e.(ackLeft := 0), policy, false)
    {
      hide WriteMany, E.Fault, DataOf, Stopped;
      packets, failed := WriteQueued(room, stays);
      n := |packets|;
      assert packets[..n] == packets;
      if !failed {
        var left := BytesLeft(room, |packets|, before);
        if ackLeft > 0 {
          packets := packets + [S.Ack(inSeq)];
          ackLeft := 0;
          failed := !flushed;
        } else if outQ != map[] || left {
          failed := !flushed;
        }
      }
      if failed {
        Fault(false);
      }
    }

    /**
     The other half of `handle_write`: a client leaves standby if something is queued, and any other
     connection with a socket flushes what an interrupted handshake message left behind.
     */
    method ReconnectOrFlush(flushed: bool, torn: bool)
      requires |sent| <= outSeq
      modifies this
      ensures View() == E.NotWritable(old(View()), policy, flushed, torn)
    {
      hide E.Fault;
      if phase.Standby? && !policy.server && outQ != map[] {
        phase := E.Connecting;
      } else if wire.Some? && !phase.Replacing? && !phase.Connecting? && !phase.Closed? && !flushed {
        Fault(torn);
      }
    }

    method HandleWrite(canWrite: bool, room: seq<int>, stays: seq<bool>, before: bool, flushed: bool, torn: bool)
      returns (packets: seq<S.Packet>, ghost n: nat, failed: bool)
      requires canWrite ==> phase.Open? && NoEmptyList(outQ)
      requires |sent| <= outSeq
      modifies this
      ensures n <= |packets| && |old(sent)| <= |WriteMany(old(View()), n).sent|
      ensures packets[..n] == DataOf(WriteMany(old(View()), n).sent, |old(sent)|)
      ensures forall i | 0 <= i < n - 1 :: (i < |room| ==> room[i] == 0) && (i < |stays| ==> stays[i])
      ensures canWrite ==>
                packets[n..] == if !SendFailed(room, n) && old(ackLeft) > 0 then [S.Ack(old(inSeq))] else []
      ensures canWrite ==>
                var e := WriteMany(old(View()), n);
                && (failed <==>
                      SendFailed(room, n)
                      || (!flushed && (old(ackLeft) > 0 || e.outQ != map[] || BytesLeft(room, n, before))))
                && (SendFailed(room, n) || e.outQ == map[] || Stopped(room, stays, n))
                && |e.sent| <= e.outSeq
                && View() == if !failed then e.(ackLeft := 0)
                             else E.Fault(if SendFailed(room, n) then e else e.(ackLeft := 0), policy, false)
      ensures !canWrite ==>
                packets == [] && !failed && View() == E.NotWritable(old(View()), policy, flushed, torn)
    {
      hide WriteMany, E.Fault, DataOf, Stopped, SendFailed, BytesLeft, E.NotWritable;
      packets, n, failed := [], 0, false;
      if canWrite {
        packets, n, failed := WriteAndAck(room, stays, before, flushed);
      } else {
        NothingWritten(View());
        ReconnectOrFlush(flushed, torn);
      }
    }

    /** `discard_out_queue`. */
    method DiscardOutQueue()
      modifies this`refs, this`outQ, this`sent
      ensures refs == old(refs) - Ids(old(sent)) - Queued(old(outQ)) && outQ == map[] && sent == []
    {
      hide Ids, Queued;
      refs, outQ, sent := refs - Ids(sent) - Queued(outQ), map[], [];
    }

    /** `was_session_reset`. */
    method WasSessionReset()
      modifies this`refs, this`outQ, this`sent, this`log, this`outSeq, this`inSeq, this`connectSeq,
               this`ackLeft, this`onceReady
      ensures View() == E.WasReset(old(View()))
    {
      hide Ids, Queued;
      ghost var e := View();
      DiscardOutQueue();
      ghost var e1 := View();
      ResetNumbers();
      ResetInTwo(e, e1, View());
    }

    method ResetNumbers()
      modifies this`log, this`outSeq, this`inSeq, this`connectSeq, this`ackLeft, this`onceReady
      ensures log == [] && outSeq == inSeq == connectSeq == ackLeft == 0 && !onceReady
    {
      log, outSeq, inSeq, connectSeq, ackLeft, onceReady := [], 0, 0, 0, 0, false;
    }

    /** What `open` does before it replies when the peer was reset. */
    method StartOver()
      modifies this`outQ, this`outSeq, this`refs, this`finished, this`hardReset, this`inSeq
      ensures View() == S.StartOver(old(View()))
    {
      hide Discard, DiscardCount, Ids, E.IdList, ListAt, Queued;
      DiscardRequeuedUpTo(0);
      assert View() == E.DiscardRequeuedUpTo(old(View()), 0);
      hardReset, inSeq := false, 0;
    }

    method Accepted(next: E.Phase, c: nat, g: nat)
      modifies this`phase, this`replacing, this`onceReady, this`connectSeq, this`peerGlobalSeq, this`counter
      ensures phase == next && !replacing && onceReady
      ensures connectSeq == c + 1 && peerGlobalSeq == g && counter == old(counter) + 1
    {
      phase, replacing, onceReady := next, false, true;
      connectSeq, peerGlobalSeq, counter := c + 1, g, counter + 1;
    }

    /**
     The `open` part of `handle_connect_msg`: the reply is READY after a hard reset of the peer, and
     otherwise SEQ with the last received number.
     */
    method OpenSession(c: nat, g: nat) returns (reply: seq<S.Packet>)
      modifies this
      ensures View() == S.OpenSession(old(View()), c, g)
      ensures reply == if old(hardReset) then [S.ReadyReply(c + 1, counter)]
                       else [S.SeqReply(c + 1, counter), S.InSeq(old(inSeq))]
    {
      hide S.StartOver, Queued, Ids;
      var ready := hardReset;
      if ready {
        StartOver();
      }
      Accepted(if ready then E.AcceptReady else E.AcceptWaitSeq, c, g);
      reply := if ready then [S.ReadyReply(connectSeq, counter)]
               else [S.SeqReply(connectSeq, counter), S.InSeq(inSeq)];
    }

    /** The last step of reading a message; an old one is dropped. */
    method DeliverMessage(id: nat, seqNo: nat) returns (isNew: bool)
      modifies this
      ensures View() == E.Deliver(old(View()), id, seqNo)
      ensures isNew <==> seqNo > old(inSeq)
      ensures isNew ==> inSeq == seqNo && ackLeft == old(ackLeft) + 1 && dispatched == old(dispatched) + [id]
      ensures !isNew ==> View() == old(View())
    {
      if seqNo <= inSeq {
        return false;
      }
      inSeq := seqNo;
      ackLeft := ackLeft + 1;
      dispatched := dispatched + [id];
      isNew := true;
    }

    method Fault(torn: bool)
      requires |sent| <= outSeq
      modifies this`outQ, this`sent, this`outSeq, this`phase, this`wire, this`replacing, this`hardReset,
               this`connectSeq
      ensures View() == E.Fault(old(View()), policy, torn)
    {
      hide Requeue, E.FaultPhase, E.FaultBumps, Queued, Ids, NextOutgoing;
      if phase.Closed? || phase.Replacing? || phase.Absent? {
        return;
      }
      RequeueSent();
      var next, bump := NextState(outQ != map[], torn);
      Detach(next, if bump then connectSeq + 1 else connectSeq);
    }

    method Detach(next: E.Phase, connectSeq: nat)
      modifies this`phase, this`wire, this`replacing, this`hardReset, this`connectSeq
      ensures phase == next && wire == None && !replacing && !hardReset && this.connectSeq == connectSeq
    {
      phase, wire, replacing, hardReset := next, None, false, false;
      this.connectSeq := connectSeq;
    }

    /** The branches of `fault` that choose the next state. */
    method NextState(queued: bool, torn: bool) returns (next: E.Phase, bump: bool)
      ensures next == E.FaultPhase(phase, onceReady, replacing, policy, queued, torn)
      ensures bump == E.FaultBumps(phase, onceReady, replacing, policy, queued, torn)
    {
      next, bump := E.Connecting, false;
      if !onceReady && !queued && phase.AcceptWaitConnect? && !replacing {
        next := E.Closed;
      } else if policy.standby && !queued && !phase.RaceWait? {
        next := E.Standby;
      } else if !(E.InConnectingStates(phase) && !torn) && !phase.RaceWait? {
        if policy.server {
          next := E.Standby;
        } else {
          bump := true;
        }
      }
    }
  }

  ghost function QueueLength(q: OutQ): nat {
    |Queued(q)|
  }

  lemma NextOutgoingShrinks(q: OutQ)
    ensures NextOutgoing(q).0.Some? ==> QueueLength(NextOutgoing(q).1) < QueueLength(q)
    ensures NextOutgoing(q).0.None? ==> QueueLength(NextOutgoing(q).1) == QueueLength(q)
    ensures NextOutgoing(q).0.None? ==> NextOutgoing(q).1 == map[]
  {
    NextOutgoingConserves(q);
    EmptyAfterNone(q);
  }

  lemma {:induction false} EmptyAfterNone(q: OutQ)
    ensures NextOutgoing(q).0.None? ==> NextOutgoing(q).1 == map[]
    decreases |q|
  {
    if q != map[] && q[TopPriority(q)] == [] {
      EmptyAfterNone(q - {TopPriority(q)});
    }
  }

  lemma {:induction false} BurstLength(e: E.Endpoint, n: nat)
    ensures WriteMany(e, n).outSeq <= e.outSeq + n
  {
    if n > 0 {
      BurstLength(e, n - 1);
    }
  }

  /**
   A burst of n writes keeps the sender window and puts consecutive messages of the first-write log
   on `sent`; as long as it only replays, the log itself does not change, so every message goes out
   under the number it had before.
   */
  lemma {:induction false} BurstFollowsLog(e: E.Endpoint, n: nat)
    requires Window(e.outQ, e.sent, e.outSeq, e.log) && WriteMany(e, n).outSeq == e.outSeq + n
    ensures var r := WriteMany(e, n);
            && Window(r.outQ, r.sent, r.outSeq, r.log)
            && e.log <= r.log
            && (n <= Replays(e.outSeq, e.log) ==> r.log == e.log)
            && |r.sent| == |e.sent| + n
            && r.sent[|e.sent|..] == Numbered(r.log, e.outSeq, e.outSeq + n)
  {
    hide Window, Numbered, ListAt, NextOutgoing;
    if n > 0 {
      var m := WriteMany(e, n - 1);
      var r := WriteMany(e, n);
      BurstLength(e, n - 1);
      assert m.outSeq == e.outSeq + n - 1;
      BurstFollowsLog(e, n - 1);
      assert NextOutgoing(m.outQ).0.Some?;
      BurstStep(m);
      SuffixOfWindow(r, n);
    } else {
      SuffixOfWindow(e, 0);
    }
  }

  lemma BurstStep(m: E.Endpoint)
    requires Window(m.outQ, m.sent, m.outSeq, m.log) && NextOutgoing(m.outQ).0.Some?
    ensures var r := E.WriteOne(m);
            && Window(r.outQ, r.sent, r.outSeq, r.log) && m.log <= r.log
            && (Replays(m.outSeq, m.log) > 0 ==> r.log == m.log) && |r.sent| == |m.sent| + 1
  {
    assert m.outQ != map[];
    WriteKeepsWindow(m.outQ, m.sent, m.outSeq, m.log);
    hide NextOutgoing, Numbered, ListAt;
  }

  lemma SuffixOfWindow(r: E.Endpoint, n: nat)
    requires Window(r.outQ, r.sent, r.outSeq, r.log) && n <= |r.sent|
    ensures r.outSeq <= |r.log| && r.sent[|r.sent| - n..] == Numbered(r.log, r.outSeq - n, r.outSeq)
  {
  }
}
