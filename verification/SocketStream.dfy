/**
 The byte stream between two sockets, over whole runs: every step is one call of `SocketTx` or
 `SocketRx`, or one move of the hardware, which is an ordered, lossless queue of packets
 (hardware_async/rdma/RDMAReliableConnectedSocketImpl.cc 201-206, 271-297, 301-405, 530-638, 730-740, 749-756).
 */
module SocketStream {
  import opened Bytes
  import opened Chunks
  import opened SocketTx

  datatype State = State(
    accepted: seq<byte>,      // all bytes `send` has taken
    pending: seq<byte>,       // pending_bl
    connected: bool,          // the sender's handshake is over
    closed: bool,             // the sender has called close
    fin: bool,                // its FIN was posted
    free: nat,                // transmit chunks in the pool
    inflight: nat,            // transmit chunks out
    posted: seq<seq<byte>>,   // packets with the hardware
    wc: seq<seq<byte>>,       // packets passed to the receiving socket
    stored: seq<byte>,        // unread bytes of its stored chunks
    open: bool,               // the receiver's handshake is over
    reset: bool,              // the receiver has seen FIN
    returned: seq<byte>)      // all bytes `read` has given out

  datatype Action =
    | Send(bytes: seq<byte>, packets: seq<seq<byte>>)
    | Handshake(packets: seq<seq<byte>>)
    | Retry(packets: seq<seq<byte>>)
    | TxDone(chunks: nat)
    | Close(ok: bool)
    | Land
    | Open
    | Read(len: nat)

  ghost function Init(free: nat): State {
    State([], [], false, false, false, free, 0, [], [], [], false, false, [])
  }

  function Post(s: State, bytes: seq<byte>, packets: seq<seq<byte>>): State
    requires |Flatten(packets)| <= |bytes| && |packets| <= s.free
  {
    s.(pending := bytes[|Flatten(packets)|..], posted := s.posted + packets,
       free := s.free - |packets|, inflight := s.inflight + |packets|)
  }

  ghost predicate Enabled(s: State, a: Action, size: nat)
    requires size > 0
  {
    match a
    case Send(bytes, packets) =>
      !s.closed && if s.connected && bytes != [] then Submits(s.pending
          + bytes, s.free, size, packets) else packets == []
    case Handshake(packets) => !s.connected && !s.closed && Submits(s.pending, s.free, size, packets)
    case Retry(packets) => s.connected && !s.closed && Submits(s.pending, s.free, size, packets)
    case TxDone(chunks) => chunks <= s.inflight
    case Close(ok) => !s.closed
    case Land => s.posted != []
    case Open => !s.open
    case Read(len) => true
  }

  /** The result of `read`, by the contract of SocketRx.RxSocket.Read. */
  function Stream(s: State): seq<byte> {
    s.stored + Flatten(s.wc)
  }

  function ReadCount(s: State, len: nat): nat {
    if s.open then Min(len, |Stream(s)|) else 0
  }

  /** `read` ends in ECONNRESET: no byte to give, and FIN has been seen. */
  predicate ReportsReset(s: State, len: nat) {
    s.open && ReadCount(s, len) == 0 && (s.reset || [] in s.wc)
  }

  ghost function Step(s: State, a: Action, size: nat): State
    requires size > 0 && Enabled(s, a, size)
  {
    match a
    case Send(bytes, packets) =>
      var s1 := s.(accepted := s.accepted + bytes);
      if s.connected && bytes != [] then Post(s1, s.pending + bytes, packets) else s1.(pending := s.pending + bytes)
    case Handshake(packets) => Post(s.(connected := true), s.pending, packets)
    case Retry(packets) => Post(s, s.pending, packets)
    case TxDone(chunks) => s.(free := s.free + chunks, inflight := s.inflight - chunks)
    case Close(ok) => s.(closed := true, fin := ok, posted := s.posted + if ok then [[]] else [])
    case Land => s.(posted := s.posted[1..], wc := s.wc + [s.posted[0]])
    case Open => s.(open := true)
    case Read(len) =>
      if !s.open then s else
        var n := ReadCount(s, len);
        s.(returned := s.returned + Stream(s)[..n], stored := Stream(s)[n..], wc := [], reset := s.reset || [] in s.wc)
  }

  /** No byte is lost, duplicated or reordered. */
  ghost predicate Conserved(s: State) {
    s.accepted == s.returned + s.stored + Flatten(s.wc) + Flatten(s.posted) + s.pending
  }

  /**
   An empty packet is FIN: among the packets q under way it is last, and it is there from its post until
   it is seen.
   */
  ghost predicate FinLast(q: seq<seq<byte>>, closed: bool, fin: bool, reset: bool) {
    && (forall i | 0 <= i < |q| - 1 :: q[i] != [])
    && (fin ==> closed)
    && (!fin ==> !reset && (q != [] ==> q[|q| - 1] != []))
    && (fin && !reset ==> q != [] && q[|q| - 1] == [])
    && (reset ==> q == [])
  }

  ghost predicate Inv(s: State, total: nat) {
    Conserved(s) && FinLast(s.wc + s.posted, s.closed, s.fin, s.reset) && s.free + s.inflight == total
  }

  lemma Regroup(a: seq<byte>, b: seq<byte>, c: seq<byte>, d: seq<byte>, e: seq<byte>, x: seq<byte>, n: nat)
    requires n <= |x|
    ensures a + b + c + d + x == a + b + c + (d + x[..n]) + x[n..]
    ensures a + b + c + d + (e + x) == a + b + c + d + e + x
  {
    assert x == x[..n] + x[n..];
  }

  lemma PostConserves(s: State, bytes: seq<byte>, packets: seq<seq<byte>>)
    requires Conserved(s.(pending := bytes)) && |packets| <= s.free
    requires |Flatten(packets)| <= |bytes| && Flatten(packets) == bytes[..|Flatten(packets)|]
    ensures Conserved(Post(s, bytes, packets))
  {
    hide Flatten;
    FlattenConcat(s.posted, packets);
    Regroup(s.returned, s.stored, Flatten(s.wc), Flatten(s.posted), [], bytes, |Flatten(packets)|);
  }

  /** Packets that hold bytes go in front of any FIN still to come. */
  lemma FullPacketsAppended(q: seq<seq<byte>>, packets: seq<seq<byte>>, reset: bool)
    requires FinLast(q, false, false, reset) && forall i | 0 <= i < |packets| :: packets[i] != []
    ensures FinLast(q + packets, false, false, reset)
  {
    assert forall i | 0 <= i < |q + packets| :: (q + packets)[i] != [];
  }

  lemma PostKeepsInv(s: State, bytes: seq<byte>, packets: seq<seq<byte>>, total: nat, size: nat)
    requires Inv(s.(pending := bytes), total) && !s.closed && size > 0 && Submits(bytes, s.free, size, packets)
    ensures |Flatten(packets)| <= |bytes| && Inv(Post(s, bytes, packets), total)
  {
    hide Conserved, Flatten, ChunksFor, Capacity;
    assert forall i | 0 <= i < |packets| :: packets[i] != [];
    PostConserves(s, bytes, packets);
    FullPacketsAppended(s.wc + s.posted, packets, s.reset);
    assert s.wc + (s.posted + packets) == s.wc + s.posted + packets;
  }

  lemma {:induction false} CloseKeepsInv(s: State, ok: bool, total: nat, size: nat)
    requires Inv(s, total) && !s.closed && size > 0
    ensures Inv(Step(s, Close(ok), size), total)
  {
    var t := Step(s, Close(ok), size);
    var q := s.wc + s.posted;
    if ok {
      FlattenSnoc(s.posted, []);
      assert t.wc + t.posted == q + [[]];
    } else {
      assert t.posted == s.posted;
    }
  }

  lemma LandConserves(s: State, size: nat)
    requires Conserved(s) && s.posted != [] && size > 0
    ensures Conserved(Step(s, Land, size))
  {
    var t := Step(s, Land, size);
    FlattenSnoc(s.wc, s.posted[0]);
    Land4(s.returned + s.stored, Flatten(s.wc), s.posted[0], Flatten(t.posted), s.pending);
  }

  lemma Land4(a: seq<byte>, b: seq<byte>, c: seq<byte>, d: seq<byte>, e: seq<byte>)
    ensures a + b + (c + d) + e == a + (b + c) + d + e
  {
    assert a + b + (c + d) == a + (b + c) + d;
  }

  lemma LandKeepsInv(s: State, total: nat, size: nat)
    requires Inv(s, total) && s.posted != [] && size > 0
    ensures Inv(Step(s, Land, size), total)
  {
    hide Flatten, Conserved, FinLast;
    LandConserves(s, size);
    var t := Step(s, Land, size);
    assert t.wc + t.posted == s.wc + s.posted;
  }

  lemma ReadConserves(s: State, len: nat, size: nat)
    requires Conserved(s) && size > 0 && s.open
    ensures Conserved(Step(s, Read(len), size))
  {
    var n, b := ReadCount(s, len), Stream(s);
    assert b == b[..n] + b[n..];
    assert s.returned + s.stored + Flatten(s.wc) == s.returned + b;
    assert s.returned + b == (s.returned + b[..n]) + b[n..] + [];
  }

  /** FIN among the completions: it is the last of them and nothing is behind it. */
  lemma FinIn(wc: seq<seq<byte>>, posted: seq<seq<byte>>, closed: bool, fin: bool, reset: bool)
    requires FinLast(wc + posted, closed, fin, reset)
    ensures [] in wc <==> fin && wc != [] && posted == []
    ensures reset ==> wc == [] && posted == []
    ensures FinLast(posted, closed, fin, reset || [] in wc)
  {
    var q := wc + posted;
    assert forall i | 0 <= i < |wc| :: wc[i] == q[i];
    assert forall i | 0 <= i < |posted| :: posted[i] == q[|wc| + i];
    if fin && wc != [] && posted == [] {
      assert wc[|wc| - 1] == [];
    }
    if posted != [] {
      assert posted[|posted| - 1] == q[|q| - 1];
      assert forall i | 0 <= i < |posted| - 1 :: posted[i] == q[|wc| + i];
    }
  }

  lemma ReadKeepsInv(s: State, len: nat, total: nat, size: nat)
    requires Inv(s, total) && size > 0 && s.open
    ensures Inv(Step(s, Read(len), size), total)
  {
    hide Flatten, Conserved, FinLast;
    ReadConserves(s, len, size);
    FinIn(s.wc, s.posted, s.closed, s.fin, s.reset);
    assert [] + s.posted == s.posted;
  }

  lemma StepKeepsInv(s: State, a: Action, total: nat, size: nat)
    requires size > 0 && Inv(s, total) && Enabled(s, a, size)
    ensures Inv(Step(s, a, size), total)
  {
    hide Submits, Flatten;
    match a
    case Send(bytes, packets) =>
      Regroup(s.returned, s.stored, Flatten(s.wc), Flatten(s.posted), s.pending, bytes, 0);
      var s1 := s.(accepted := s.accepted + bytes);
      assert s.returned + s.stored + Flatten(s.wc) + Flatten(s.posted) + (s.pending + bytes) == s1.accepted;
      assert Inv(s1.(pending := s.pending + bytes), total);
      if s.connected && bytes != [] {
        PostKeepsInv(s1, s.pending + bytes, packets, total, size);
      }
    case Handshake(packets) =>
      assert Inv(s.(connected := true), total);
      PostKeepsInv(s.(connected := true), s.pending, packets, total, size);
    case Retry(packets) =>
      PostKeepsInv(s, s.pending, packets, total, size);
    case TxDone(chunks) =>
    case Close(ok) => CloseKeepsInv(s, ok, total, size);
    case Land => LandKeepsInv(s, total, size);
    case Open =>
    case Read(len) =>
      if s.open {
        ReadKeepsInv(s, len, total, size);
      }
  }

  ghost predicate CanRun(s: State, run: seq<Action>, size: nat)
    requires size > 0
    decreases |run|
  {
    run == [] || (Enabled(s, run[0], size) && CanRun(Step(s, run[0], size), run[1..], size))
  }

  ghost function After(s: State, run: seq<Action>, size: nat): State
    requires size > 0 && CanRun(s, run, size)
    decreases |run|
  {
    if run == [] then s else After(Step(s, run[0], size), run[1..], size)
  }

  lemma {:induction false} RunKeepsInv(s: State, run: seq<Action>, total: nat, size: nat)
    requires size > 0 && Inv(s, total) && CanRun(s, run, size)
    ensures Inv(After(s, run, size), total)
    decreases |run|
  {
    if run != [] {
      StepKeepsInv(s, run[0], total, size);
      RunKeepsInv(Step(s, run[0], size), run[1..], total, size);
    }
  }

  /**
   After any run: the accepted bytes are those returned, then the receiver's unread ones, then the
   packets still travelling, then the pending ones; and the pool has lost no chunk.
   */
  lemma StreamIsConserved(free: nat, run: seq<Action>, size: nat)
    requires size > 0 && CanRun(Init(free), run, size)
    ensures var s := After(Init(free), run, size);
            && s.accepted == s.returned + s.stored + Flatten(s.wc) + Flatten(s.posted) + s.pending
            && s.free + s.inflight == free
  {
    assert Inv(Init(free), free);
    RunKeepsInv(Init(free), run, free, size);
  }

  /**
   After any run: a read that asks for bytes reports the remote close only when every byte the peer
   ever posted has been returned. A read of no bytes may report it with bytes unread, and no other can.
   */
  lemma ResetComesLast(free: nat, run: seq<Action>, size: nat, len: nat)
    requires size > 0 && CanRun(Init(free), run, size)
    requires ReportsReset(After(Init(free), run, size), len)
    ensures var s := After(Init(free), run, size);
            && s.fin
            && (Stream(s) == [] <==> s.accepted == s.returned + s.pending)
            && (len > 0 ==> Stream(s) == [])
  {
    var s := After(Init(free), run, size);
    assert Inv(Init(free), free);
    RunKeepsInv(Init(free), run, free, size);
    FinIn(s.wc, s.posted, s.closed, s.fin, s.reset);
    assert s.accepted == s.returned + Stream(s) + s.pending;
    if s.accepted == s.returned + s.pending {
      assert |Stream(s)| == 0;
    }
  }

  lemma Prepend(s: State, a: Action, run: seq<Action>, size: nat)
    requires size > 0 && Enabled(s, a, size) && CanRun(Step(s, a, size), run, size)
    ensures CanRun(s, [a] + run, size) && After(s, [a] + run, size) == After(Step(s, a, size), run, size)
  {
    assert ([a] + run)[1..] == run;
  }

  /** One byte is sent, the peer closes, both packets land. */
  lemma EarlyScenario(packet: seq<byte>, s1: State, s2: State, s3: State, s4: State, s5: State, s6: State)
    requires |packet| == 1
    requires s1 == Init(1).(connected := true)
    requires s2 == State(packet, [], true, false, false, 0, 1, [packet], [], [], false, false, [])
    requires s3 == s2.(closed := true, fin := true, posted := [packet, []])
    requires s4 == s3.(open := true)
    requires s5 == s4.(posted := [[]], wc := [packet])
    requires s6 == s5.(posted := [], wc := [packet, []])
    ensures Enabled(Init(1), Handshake([]), 1) && Step(Init(1), Handshake([]), 1) == s1
    ensures Enabled(s1, Send(packet, [packet]), 1) && Step(s1, Send(packet, [packet]), 1) == s2
    ensures Enabled(s2, Close(true), 1) && Step(s2, Close(true), 1) == s3
    ensures Enabled(s3, Open, 1) && Step(s3, Open, 1) == s4
    ensures Enabled(s4, Land, 1) && Step(s4, Land, 1) == s5
    ensures Enabled(s5, Land, 1) && Step(s5, Land, 1) == s6
    ensures ReportsReset(s6, 0) && Stream(s6) != []
  {
    hide Submits;
    OnePacket(packet);
    assert s1.pending + packet == packet && s1.accepted + packet == packet;
    assert Flatten(s6.wc) == packet + Flatten(s6.wc[1..]);
  }

  /** The exception is real: after this run a read of no bytes fails with a byte unread. */
  lemma EarlyResetExists() returns (run: seq<Action>, size: nat, free: nat)
    ensures size > 0 && CanRun(Init(free), run, size)
    ensures ReportsReset(After(Init(free), run, size), 0) && Stream(After(Init(free), run, size)) != []
  {
    hide CanRun, After, Submits, Enabled, Step, Stream, ReportsReset;
    size, free := 1, 1;
    var packet: seq<byte> := [7];
    var s1 := Init(1).(connected := true);
    var s2 := State(packet, [], true, false, false, 0, 1, [packet], [], [], false, false, []);
    var s3 := s2.(closed := true, fin := true, posted := [packet, []]);
    var s4 := s3.(open := true);
    var s5 := s4.(posted := [[]], wc := [packet]);
    var s6 := s5.(posted := [], wc := [packet, []]);
    EarlyScenario(packet, s1, s2, s3, s4, s5, s6);
    Nowhere(s6);
    var r5: seq<Action> := [Land] + [];
    var r4 := [Land] + r5;
    var r3 := [Open] + r4;
    var r2 := [Close(true)] + r3;
    var r1 := [Send(packet, [packet])] + r2;
    run := [Handshake([])] + r1;
    Prepend(s5, Land, [], 1);
    Prepend(s4, Land, r5, 1);
    Prepend(s3, Open, r4, 1);
    Prepend(s2, Close(true), r3, 1);
    Prepend(s1, Send(packet, [packet]), r2, 1);
    Prepend(Init(1), Handshake([]), r1, 1);
  }

  lemma Nowhere(s: State)
    ensures CanRun(s, [], 1) && After(s, [], 1) == s
  {
  }

  lemma OnePacket(packet: seq<byte>)
    requires |packet| == 1
    ensures Submits([], 1, 1, []) && Submits(packet, 1, 1, [packet]) && Flatten([packet]) == packet && packet[1..] == []
  {
    assert [packet][1..] == [];
    assert Flatten([packet]) == packet;
  }
}
