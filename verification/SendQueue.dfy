/**
 The outbound side of one lossless connection, on values: the priority queue `out_q`, the list
 `sent` of written but unacknowledged messages, and the counter `out_seq`
 (hardware_async/rdma/backed_RDMAReliableConnected.cc, RDMAReliableConnected.h).

 `Window` is the sender's invariant; the lemmas show that each operation keeps it.
 */
module SendQueue {
  import opened Wrappers

  /** A message: its identity and the number in its header (0 until it is first written). */
  datatype Msg = Msg(id: nat, seqNo: nat)

  /** Priority -> messages waiting to be written, oldest first. */
  type OutQ = map<nat, seq<Msg>>

  /** CEPH_MSG_PRIO_HIGHEST of the message header definitions, which are not part of this model. */
  const HIGHEST: nat := 255

  function ListAt(q: OutQ, p: nat): seq<Msg> {
    if p in q then q[p] else []
  }

  ghost predicate NoEmptyList(q: OutQ) {
    forall p | p in q :: q[p] != []
  }

  ghost predicate AtMostHighest(q: OutQ) {
    forall p | p in q :: p <= HIGHEST
  }

  lemma MaxExists(s: set<nat>)
    requires s != {}
    ensures exists m :: m in s && forall k | k in s :: k <= m
  {
    var x :| x in s;
    if s != {x} {
      var rest := s - {x};
      MaxExists(rest);
      var m :| m in rest && forall k | k in rest :: k <= m;
      var top := if m < x then x else m;
      forall k | k in s ensures k <= top {
        assert k == x || k in rest;
      }
    }
  }

  /** The last key of the ordered map: the list that is served first. */
  function TopPriority(q: OutQ): (p: nat)
    requires q != map[]
    ensures p in q && forall k | k in q :: k <= p
  {
    assert q.Keys != {} by { var k :| k in q; }
    MaxExists(q.Keys);
    var p :| p in q.Keys && forall k | k in q.Keys :: k <= p;
    p
  }

  /** The message `_get_next_outgoing` returns, and the queue it leaves behind. */
  function NextOutgoing(q: OutQ): (r: (Option<Msg>, OutQ))
    decreases |q|
  {
    if q == map[] then (None, q) else
      var p := TopPriority(q);
      if q[p] == [] then NextOutgoing(q - {p})
      else (Some(q[p][0]), if |q[p]| == 1 then q - {p} else q[p := q[p][1..]])
  }

  function Enqueue(q: OutQ, p: nat, m: Msg): OutQ {
    q[p := ListAt(q, p) + [m]]
  }

  /** `requeue_sent`: the sent list goes back, in order, in front of the highest list. */
  function Requeue(q: OutQ, sent: seq<Msg>): OutQ {
    if sent == [] then q else q[HIGHEST := sent + ListAt(q, HIGHEST)]
  }

  /** How many messages at the front of the highest list the peer already has. */
  function DiscardCount(l: seq<Msg>, acked: nat): (n: nat)
    ensures n <= |l|
  {
    if l == [] || l[0].seqNo == 0 || l[0].seqNo > acked then 0 else 1 + DiscardCount(l[1..], acked)
  }

  /** `discard_requeued_up_to`: drop those messages; an emptied list leaves the map. */
  function Discard(q: OutQ, acked: nat): OutQ {
    if HIGHEST !in q then q else
      var l := q[HIGHEST][DiscardCount(q[HIGHEST], acked)..];
      if l == [] then q - {HIGHEST} else q[HIGHEST := l]
  }

  /** `handle_ack`: how many messages at the front of `sent` are acknowledged. */
  function AckCount(sent: seq<Msg>, acked: nat): (n: nat)
    ensures n <= |sent|
  {
    if sent == [] || sent[0].seqNo > acked then 0 else 1 + AckCount(sent[1..], acked)
  }

  // ---------------------------------------------------------------- the sender window

  /** Messages number from+1 .. last of the first-write log, as they look in a list. */
  function Numbered(log: seq<nat>, from: nat, last: nat): (s: seq<Msg>)
    requires from <= last <= |log|
  {
    seq(last - from, i requires 0 <= i < last - from => Msg(log[from + i], from + i + 1))
  }

  /** Messages of the highest list that were written before and wait to be replayed. */
  function Replays(outSeq: nat, log: seq<nat>): nat
    requires outSeq <= |log|
  {
    |log| - outSeq
  }

  /**
   `log` holds the messages in the order of their first write, so message k of it owns number k+1.
   `sent` is the run of numbers ending at outSeq, the highest list starts with the numbers after
   outSeq that were already used, and nothing else carries a number.
   */
  ghost predicate Window(q: OutQ, sent: seq<Msg>, outSeq: nat, log: seq<nat>) {
    && NoEmptyList(q)
    && AtMostHighest(q)
    && |sent| <= outSeq <= |log|
    && sent == Numbered(log, outSeq - |sent|, outSeq)
    && var r := Replays(outSeq, log);
       && r <= |ListAt(q, HIGHEST)|
       && ListAt(q, HIGHEST)[..r] == Numbered(log, outSeq, |log|)
       && (forall i | r <= i < |ListAt(q, HIGHEST)| :: ListAt(q, HIGHEST)[i].seqNo == 0)
       && (forall p, i | p in q && p != HIGHEST && 0 <= i < |q[p]| :: q[p][i].seqNo == 0)
  }

  /** Without empty lists the queue's front is the front of its top list. */
  lemma NextOutgoingOfWindow(q: OutQ)
    requires NoEmptyList(q) && q != map[]
    ensures NextOutgoing(q).0 == Some(q[TopPriority(q)][0])
    ensures NoEmptyList(NextOutgoing(q).1)
  {
  }

  /**
   The message taken is the front of the highest list that has one, and nothing else leaves the queue.
   (Lists that are empty may be dropped on the way.)
   */
  lemma {:induction false} HighestFirst(q: OutQ, p: nat)
    requires p in q && q[p] != [] && forall k | k in q && k > p :: q[k] == []
    ensures NextOutgoing(q).0 == Some(q[p][0])
    ensures forall k: nat :: ListAt(NextOutgoing(q).1, k) == if k == p then q[p][1..] else ListAt(q, k)
    decreases |q|
  {
    var top := TopPriority(q);
    if top != p {
      HighestFirst(q - {top}, p);
    }
  }

  /**
   Writing gives a replayed message the number it had, and a fresh one the next unused number;
   the first-write log grows exactly in the second case.
   */
  lemma WriteKeepsWindow(q: OutQ, sent: seq<Msg>, outSeq: nat, log: seq<nat>)
    requires Window(q, sent, outSeq, log) && q != map[]
    ensures var m := NextOutgoing(q).0.value;
            var written := Msg(m.id, outSeq + 1);
            var log' := if m.seqNo == 0 then log + [m.id] else log;
            && (m.seqNo != 0 ==> m == written)
            && (m.seqNo == 0 <==> Replays(outSeq, log) == 0)
            && Window(NextOutgoing(q).1, sent + [written], outSeq + 1, log')
  {
    NextOutgoingOfWindow(q);
    var p := TopPriority(q);
    var m := q[p][0];
    var q' := NextOutgoing(q).1;
    var r := Replays(outSeq, log);
    var l := ListAt(q, HIGHEST);
    var l' := ListAt(q', HIGHEST);
    if r > 0 {
      assert p == HIGHEST;
      assert m == l[..r][0] == Numbered(log, outSeq, |log|)[0];
      assert l' == l[1..];
      forall i | 0 <= i < r - 1 ensures l'[i] == Numbered(log, outSeq + 1, |log|)[i] {
        assert l'[i] == l[..r][i + 1] == Numbered(log, outSeq, |log|)[i + 1];
      }
    } else {
      assert m.seqNo == 0;
    }
  }

  /** Going back: the numbers of `sent` join the replays in front of them. */
  lemma RequeueKeepsWindow(q: OutQ, sent: seq<Msg>, outSeq: nat, log: seq<nat>)
    requires Window(q, sent, outSeq, log)
    ensures Window(Requeue(q, sent), [], outSeq - |sent|, log)
  {
    if sent != [] {
      var base := outSeq - |sent|;
      var l := ListAt(q, HIGHEST);
      var l' := ListAt(Requeue(q, sent), HIGHEST);
      var r := Replays(outSeq, log);
      assert l' == sent + l;
      forall i | 0 <= i < |log| - base ensures l'[i] == Numbered(log, base, |log|)[i] {
        if i >= |sent| {
          assert l'[i] == l[..r][i - |sent|] == Numbered(log, outSeq, |log|)[i - |sent|];
        }
      }
      assert l'[..|log| - base] == Numbered(log, base, |log|);
    }
  }

  lemma {:induction false} DiscardCountOf(l: seq<Msg>, log: seq<nat>, outSeq: nat, acked: nat)
    requires outSeq <= |log| && acked <= |log|
    requires Replays(outSeq, log) <= |l|
    requires l[..Replays(outSeq, log)] == Numbered(log, outSeq, |log|)
    requires forall i | Replays(outSeq, log) <= i < |l| :: l[i].seqNo == 0
    ensures DiscardCount(l, acked) == if acked <= outSeq then 0 else acked - outSeq
    decreases |log| - outSeq
  {
    if outSeq < |log| {
      assert l[0] == l[..Replays(outSeq, log)][0];
      if outSeq < acked {
        var t := l[1..];
        forall i | 0 <= i < Replays(outSeq + 1, log)
          ensures t[i] == Numbered(log, outSeq + 1, |log|)[i]
        {
          assert t[i] == l[..Replays(outSeq, log)][i + 1] == Numbered(log, outSeq, |log|)[i + 1];
        }
        assert t[..Replays(outSeq + 1, log)] == Numbered(log, outSeq + 1, |log|);
        DiscardCountOf(t, log, outSeq + 1, acked);
      }
    }
  }

  /** During a handshake `sent` is empty; the exchange moves outSeq up to the peer's number. */
  lemma DiscardKeepsWindow(q: OutQ, outSeq: nat, log: seq<nat>, acked: nat)
    requires Window(q, [], outSeq, log) && acked <= |log|
    ensures var n := DiscardCount(ListAt(q, HIGHEST), acked);
            && n == (if acked <= outSeq then 0 else acked - outSeq)
            && Window(Discard(q, acked), [], outSeq + n, log)
  {
    var l := ListAt(q, HIGHEST);
    DiscardCountOf(l, log, outSeq, acked);
    hide DiscardCount;
    var n := DiscardCount(l, acked);
    var l' := ListAt(Discard(q, acked), HIGHEST);
    if HIGHEST in q {
      assert l' == l[n..];
      forall i | 0 <= i < |log| - outSeq - n ensures l'[i] == Numbered(log, outSeq + n, |log|)[i] {
        assert l'[i] == l[..Replays(outSeq, log)][n + i] == Numbered(log, outSeq, |log|)[n + i];
      }
      assert l'[..|log| - outSeq - n] == Numbered(log, outSeq + n, |log|);
    }
  }

  lemma {:induction false} AckCountOf(log: seq<nat>, from: nat, last: nat, acked: nat)
    requires from <= last <= |log|
    ensures AckCount(Numbered(log, from, last), acked)
         == if acked <= from then 0 else if acked >= last then last - from else acked - from
    decreases last - from
  {
    if from < last && from < acked {
      assert Numbered(log, from, last)[1..] == Numbered(log, from + 1, last);
      AckCountOf(log, from + 1, last, acked);
    }
  }

  lemma AckKeepsWindow(q: OutQ, sent: seq<Msg>, outSeq: nat, log: seq<nat>, acked: nat)
    requires Window(q, sent, outSeq, log)
    ensures var n := AckCount(sent, acked);
            var base := outSeq - |sent|;
            && base + n == (if acked <= base then base else if acked >= outSeq then outSeq else acked)
            && Window(q, sent[n..], outSeq, log)
  {
    AckCountOf(log, outSeq - |sent|, outSeq, acked);
    hide AckCount;
    var n := AckCount(sent, acked);
    assert sent[n..] == Numbered(log, outSeq - |sent| + n, outSeq);
  }

  lemma EnqueueKeepsWindow(q: OutQ, sent: seq<Msg>, outSeq: nat, log: seq<nat>, p: nat, id: nat)
    requires Window(q, sent, outSeq, log) && p <= HIGHEST
    ensures Window(Enqueue(q, p, Msg(id, 0)), sent, outSeq, log)
  {
    var r := Replays(outSeq, log);
    var l' := ListAt(Enqueue(q, p, Msg(id, 0)), HIGHEST);
    assert l'[..r] == ListAt(q, HIGHEST)[..r];
  }

  // ------------------------------------------------- priorities above the highest one

  /** `Window` without the bound on priorities. */
  ghost predicate OpenWindow(q: OutQ, outSeq: nat, log: seq<nat>) {
    && NoEmptyList(q)
    && outSeq < |log|
    && Replays(outSeq, log) <= |ListAt(q, HIGHEST)|
    && ListAt(q, HIGHEST)[..Replays(outSeq, log)] == Numbered(log, outSeq, |log|)
    && (forall p, i | p in q && p != HIGHEST && 0 <= i < |q[p]| :: q[p][i].seqNo == 0)
  }

  /**
   While a replay is waiting, the next write keeps a number it had exactly if no queued message
   has a priority above HIGHEST.
   */
  lemma ReplayKeepsNumberIff(q: OutQ, outSeq: nat, log: seq<nat>)
    requires OpenWindow(q, outSeq, log)
    ensures q != map[]
    ensures NextOutgoing(q).0 == Some(Msg(log[outSeq], outSeq + 1)) <==> AtMostHighest(q)
  {
    var r := Replays(outSeq, log);
    assert ListAt(q, HIGHEST)[0] == ListAt(q, HIGHEST)[..r][0] == Numbered(log, outSeq, |log|)[0];
    assert HIGHEST in q;
    NextOutgoingOfWindow(q);
    var p := TopPriority(q);
    if p != HIGHEST {
      assert q[p][0].seqNo == 0;
      assert p > HIGHEST;
    }
  }

  /** A message of priority 300 overtakes the replay of message 7 and takes its number 1. */
  lemma PriorityAboveHighestStealsNumber()
    ensures var q := map[HIGHEST := [Msg(7, 1)], 300 := [Msg(8, 0)]];
            OpenWindow(q, 0, [7]) && NextOutgoing(q).0 == Some(Msg(8, 0))
  {
    var q := map[HIGHEST := [Msg(7, 1)], 300 := [Msg(8, 0)]];
    assert ListAt(q, HIGHEST)[..1] == Numbered([7], 0, 1);
    assert q[300] == [Msg(8, 0)];
    assert OpenWindow(q, 0, [7]);
    NextOutgoingOfWindow(q);
    assert 300 in q && TopPriority(q) == 300;
  }

  // ---------------------------------------------------------------- ownership

  ghost function Ids(l: seq<Msg>): (r: multiset<nat>)
    ensures |r| == |l|
  {
    if l == [] then multiset{} else multiset{l[0].id} + Ids(l[1..])
  }

  /** Every message held by the queue, whatever its priority. */
  ghost function Queued(q: OutQ): (r: multiset<nat>)
    ensures q == map[] ==> r == multiset{}
    decreases |q|
  {
    if q == map[] then multiset{} else
      var p := TopPriority(q);
      Ids(q[p]) + Queued(q - {p})
  }

  lemma {:induction false} QueuedSplit(q: OutQ, p: nat)
    requires p in q
    ensures Queued(q) == Ids(q[p]) + Queued(q - {p})
    decreases |q|
  {
    hide Ids;
    var top := TopPriority(q);
    if top != p {
      var rest := q - {top};
      QueuedSplit(rest, p);
      var other := q - {p};
      assert top in other;
      assert TopPriority(other) == top;
      assert other - {top} == rest - {p};
      assert Queued(other) == Ids(q[top]) + Queued(other - {top});
      assert Queued(q) == Ids(q[top]) + Queued(rest);
    }
  }

  /** Only the changed list matters. */
  lemma QueuedUpdate(q: OutQ, p: nat, l: seq<Msg>)
    ensures Queued(q[p := l]) == Ids(l) + Queued(q - {p})
    ensures Queued(q) == Ids(ListAt(q, p)) + Queued(q - {p})
  {
    hide Queued;
    QueuedSplit(q[p := l], p);
    assert q[p := l] - {p} == q - {p};
    if p in q {
      QueuedSplit(q, p);
    } else {
      assert q - {p} == q;
    }
  }

  lemma {:induction false} IdsConcat(a: seq<Msg>, b: seq<Msg>)
    ensures Ids(a + b) == Ids(a) + Ids(b)
  {
    if a == [] {
      assert a + b == b;
    } else {
      assert (a + b)[0] == a[0] && (a + b)[1..] == a[1..] + b;
      IdsConcat(a[1..], b);
    }
  }

  lemma IdsOne(m: Msg)
    ensures Ids([m]) == multiset{m.id}
  {
    assert [m][1..] == [];
  }

  lemma {:induction false} NextOutgoingConserves(q: OutQ)
    ensures var (m, q') := NextOutgoing(q);
            match m
            case None => Queued(q) == Queued(q') == multiset{}
            case Some(x) => Queued(q) == multiset{x.id} + Queued(q')
    decreases |q|
  {
    hide Queued;
    if q != map[] {
      var p := TopPriority(q);
      QueuedSplit(q, p);
      if q[p] == [] {
        NextOutgoingConserves(q - {p});
      } else {
        QueuedUpdate(q, p, q[p][1..]);
        assert Ids(q[p]) == multiset{q[p][0].id} + Ids(q[p][1..]);
      }
    }
  }

  lemma EnqueueConserves(q: OutQ, p: nat, m: Msg)
    ensures Queued(Enqueue(q, p, m)) == Queued(q) + multiset{m.id}
  {
    hide Queued;
    QueuedUpdate(q, p, ListAt(q, p) + [m]);
    IdsConcat(ListAt(q, p), [m]);
  }

  lemma RequeueConserves(q: OutQ, sent: seq<Msg>)
    ensures Queued(Requeue(q, sent)) == Queued(q) + Ids(sent)
  {
    hide Queued;
    if sent != [] {
      QueuedUpdate(q, HIGHEST, sent + ListAt(q, HIGHEST));
      IdsConcat(sent, ListAt(q, HIGHEST));
    }
  }

  lemma DiscardConserves(q: OutQ, acked: nat)
    ensures var l := ListAt(q, HIGHEST);
            Queued(q) == Ids(l[..DiscardCount(l, acked)]) + Queued(Discard(q, acked))
  {
    hide Queued, DiscardCount;
    var l := ListAt(q, HIGHEST);
    var n := DiscardCount(l, acked);
    if HIGHEST in q {
      IdsConcat(l[..n], l[n..]);
      assert l[..n] + l[n..] == l;
      QueuedUpdate(q, HIGHEST, l[n..]);
    }
  }

  lemma AckConserves(sent: seq<Msg>, acked: nat)
    ensures var n := AckCount(sent, acked); Ids(sent) == Ids(sent[..n]) + Ids(sent[n..])
  {
    var n := AckCount(sent, acked);
    hide Ids, AckCount;
    IdsConcat(sent[..n], sent[n..]);
    assert sent[..n] + sent[n..] == sent;
  }
}
