/**
 The machine of SocketStream is what the two socket objects do: each method here calls one of their
 operations and shows, from that operation's contract alone, that it takes the machine's step of the
 same name. (The posts succeed; SocketTx.Socket.Submit says what a failed one loses.)
 */
module SocketSteps {
  import opened Bytes
  import opened Chunks
  import opened Tx = SocketTx
  import Rx = SocketRx
  import opened SocketStream

  /** The sending object, in a state of the machine. */
  ghost predicate TxMatches(o: Tx.Socket, s: State)
    reads o, o.worker, o.worker.pool, o.worker.pool.freeChunks
  {
    && o.worker.Valid()
    && (o.error == 0 <==> !s.closed) && o.connected == s.connected
    && Flatten(o.pendingBl) == s.pending
    && |o.worker.pool.freeChunks| == s.free && o.worker.inflight == s.inflight
  }

  /** What a call that submits leaves is what the machine's post leaves. */
  lemma SubmittedIsPost(o: Tx.Socket, s: State, bytes: seq<byte>, before: seq<seq<byte>>, packets: seq<seq<byte>>)
    requires o.worker.Valid() && !s.closed && o.error == 0 && o.connected == s.connected
    requires o.Submitted(0, bytes, before, s.free, s.inflight, packets)
    ensures Submits(bytes, s.free, o.worker.pool.bufferSize, packets)
    ensures |Flatten(packets)| <= |bytes| && |packets| <= s.free && TxMatches(o, Post(s, bytes, packets))
    ensures o.wire == before + packets && Post(s, bytes, packets).posted == s.posted + packets
  {
    hide o.worker.pool.Valid, Submits, Flatten, ChunksFor;
    assert |packets| <= s.free by { SubmitsWithin(bytes, s.free, o.worker.pool.bufferSize, packets); }
  }

  lemma SubmitsWithin(bytes: seq<byte>, free: nat, size: nat, packets: seq<seq<byte>>)
    requires size > 0 && Submits(bytes, free, size, packets)
    ensures |packets| <= free
  {
  }

  method SendIsAStep(o: Tx.Socket, bl: seq<seq<byte>>, ghost s: State)
    returns (r: int, ghost packets: seq<seq<byte>>, ghost t: State)
    requires TxMatches(o, s) && !s.closed
    modifies o`pendingBl, o`wire, o`pending, o.worker`inflight, o.worker`pendingSentConns, o.worker`waiting
    modifies o.worker.pool`freeChunks, o.worker.pool`lent, Memory(o.worker.pool.freeChunks)
    ensures var size := o.worker.pool.bufferSize;
            && size > 0 && Enabled(s, SocketStream.Send(Flatten(bl), packets), size)
            && t == Step(s, SocketStream.Send(Flatten(bl), packets), size)
    ensures TxMatches(o, t) && o.wire == old(o.wire) + packets && r == |Flatten(bl)|
  {
    hide o.worker.pool.Valid, Submits, Flatten, o.Submitted;
    r, packets := o.Send(bl, 0);
    ghost var s1 := s.(accepted := s.accepted + Flatten(bl));
    if s.connected && Flatten(bl) != [] {
      SubmittedIsPost(o, s1, s.pending + Flatten(bl), old(o.wire), packets);
    }
    t := Step(s, SocketStream.Send(Flatten(bl), packets), o.worker.pool.bufferSize);
  }

  method HandshakeIsAStep(o: Tx.Socket, ghost s: State) returns (r: int, ghost packets: seq<seq<byte>>, ghost t: State)
    requires TxMatches(o, s) && !s.closed && !s.connected
    modifies o`connected, o`pendingBl, o`wire, o`pending
    modifies o.worker`inflight, o.worker`pendingSentConns, o.worker`waiting
    modifies o.worker.pool`freeChunks, o.worker.pool`lent, Memory(o.worker.pool.freeChunks)
    ensures var size := o.worker.pool.bufferSize;
            && size > 0 && Enabled(s, Handshake(packets), size) && t == Step(s, Handshake(packets), size)
    ensures TxMatches(o, t) && o.wire == old(o.wire) + packets
  {
    hide o.worker.pool.Valid, Submits, Flatten, o.Submitted;
    r, packets := o.HandshakeDone(0);
    SubmittedIsPost(o, s.(connected := true), s.pending, old(o.wire), packets);
    t := Step(s, Handshake(packets), o.worker.pool.bufferSize);
  }

  /** A worker hands the socket free chunks: `submit` again. */
  method RetryIsAStep(o: Tx.Socket, ghost s: State) returns (r: int, ghost packets: seq<seq<byte>>, ghost t: State)
    requires TxMatches(o, s) && !s.closed && s.connected
    modifies o`pendingBl, o`wire, o`pending
    modifies o.worker`inflight, o.worker`pendingSentConns, o.worker`waiting
    modifies o.worker.pool`freeChunks, o.worker.pool`lent, Memory(o.worker.pool.freeChunks)
    ensures var size := o.worker.pool.bufferSize;
            && size > 0 && Enabled(s, Retry(packets), size) && t == Step(s, Retry(packets), size)
    ensures TxMatches(o, t) && o.wire == old(o.wire) + packets
  {
    hide o.worker.pool.Valid, Submits, Flatten, o.Submitted;
    r, packets := o.Flush(0);
    SubmittedIsPost(o, s, s.pending, old(o.wire), packets);
    t := Step(s, Retry(packets), o.worker.pool.bufferSize);
  }

  method TxDoneIsAStep(o: Tx.Socket, chunks: seq<Chunk>, ghost s: State) returns (notify: bool, ghost t: State)
    requires TxMatches(o, s)
    requires Elements(chunks) <= o.worker.pool.lent && forall c | c in chunks :: c.Valid()
    requires forall i, j | 0 <= i < j < |chunks| :: chunks[i] != chunks[j]
    modifies o.worker`inflight, o.worker.pool`freeChunks, o.worker.pool`lent, chunks
    ensures o.worker.pool.bufferSize > 0 && Enabled(s, TxDone(|chunks|), o.worker.pool.bufferSize)
    ensures t == Step(s, TxDone(|chunks|), o.worker.pool.bufferSize) && TxMatches(o, t)
  {
    hide o.worker.pool.Valid, Flatten;
    NotAChunk(o, chunks);
    CountElements(chunks);
    CountSubset(Elements(chunks), o.worker.pool.lent);
    notify := o.worker.PostTxBuffer(chunks);
    t := Step(s, TxDone(|chunks|), o.worker.pool.bufferSize);
  }

  // ---------------------------------------------------------------- the receiving object

  ghost predicate HasFin(ws: seq<Rx.Completion>) {
    exists i :: 0 <= i < |ws| && ws[i].byteLen == 0
  }

  /** The receiving object, in a state of the machine. */
  ghost predicate RxMatches(x: Rx.RxSocket, s: State)
    reads x, x.buffers, Memory(x.buffers), Rx.ChunksOf(x.wc), Memory(Rx.ChunksOf(x.wc))
  {
    && Rx.Stored(x.buffers) && Rx.Fits(x.wc)
    && Rx.Rest(x.buffers) == s.stored && Rx.Incoming(x.wc) == Flatten(s.wc)
    && (HasFin(x.wc) <==> [] in s.wc)
    && (x.active && x.connected <==> s.open)
    && x.error == if s.reset then Rx.ECONNRESET else 0
  }

  /** A read that gives all there is, or all that was asked for, gives as much as the machine's. */
  lemma CountIs(got: seq<byte>, rest: seq<byte>, stream: seq<byte>, len: nat)
    requires got + rest == stream && |got| <= len && (rest == [] || |got| == len)
    ensures |got| == Min(len, |stream|) && stream[..|got|] == got && stream[|got|..] == rest
  {
  }

  lemma EmptyRest(bufs: seq<Chunk>)
    requires Rx.Stored(bufs)
    ensures bufs == [] ==> Rx.Rest(bufs) == []
  {
  }

  lemma NothingIncoming()
    ensures Rx.Fits([]) && Rx.Incoming([]) == [] && Flatten([]) == [] && !HasFin([])
  {
  }

  lemma FinIs(ws: seq<Rx.Completion>)
    ensures HasFin(ws) <==> exists i :: 0 <= i < |ws| && ws[i].byteLen == 0
  {
  }

  method ReadIsAStep(x: Rx.RxSocket, dst: array<byte>, len: nat, ghost s: State, ghost size: nat)
    returns (r: int, ghost n: nat, ghost t: State)
    requires RxMatches(x, s) && Rx.Disjoint(dst, x.buffers, Rx.ChunksOf(x.wc)) && len <= dst.Length && size > 0
    modifies x`buffers, x`returned, x`wc, x`error, x`notified, x.buffers, Rx.ChunksOf(x.wc), dst
    ensures t == Step(s, Read(len), size) && RxMatches(x, t)
    ensures n <= len && t.returned == s.returned + dst[..n] && n == ReadCount(s, len)
    ensures r == 0 - Rx.ECONNRESET <==> ReportsReset(s, len)
  {
    hide Rx.Stored, Rx.Fits, Rx.Incoming, Rx.Rest, Rx.Disjoint, Flatten, HasFin;
    FinIs(x.wc);
    r, n := x.Read(dst, len);
    t := Step(s, Read(len), size);
    if s.open {
      EmptyRest(x.buffers);
      NothingIncoming();
      CountIs(dst[..n], Rx.Rest(x.buffers), Stream(s), len);
    } else {
      assert s.returned + dst[..0] == s.returned;
    }
  }

  /** The hardware's next packet lands in chunk w.chunk, and the completion is passed to the socket. */
  method LandIsAStep(x: Rx.RxSocket, w: Rx.Completion, ghost s: State, ghost size: nat) returns (ghost t: State)
    requires RxMatches(x, s) && s.posted != [] && size > 0
    requires Rx.FitsOne(w) && w.chunk.buffer[..w.byteLen] == s.posted[0]
    modifies x`wc, x`notified
    ensures t == Step(s, Land, size) && RxMatches(x, t)
  {
    hide Rx.Stored, Rx.Rest, Flatten;
    NotAChunk(x, x.buffers);
    NotAChunk(x, Rx.ChunksOf(x.wc + [w]));
    IncomingSnoc(x.wc, w);
    FlattenSnoc(s.wc, s.posted[0]);
    FinSnoc(x.wc, w, s.wc, s.posted[0]);
    x.PassWc([w]);
    t := Step(s, Land, size);
  }

  lemma FinSnoc(ws: seq<Rx.Completion>, w: Rx.Completion, q: seq<seq<byte>>, packet: seq<byte>)
    requires (HasFin(ws) <==> [] in q) && |packet| == w.byteLen
    ensures HasFin(ws + [w]) <==> [] in q + [packet]
  {
    var ws2 := ws + [w];
    if HasFin(ws) {
      var i :| 0 <= i < |ws| && ws[i].byteLen == 0;
      assert ws2[i].byteLen == 0;
    }
    if w.byteLen == 0 {
      assert ws2[|ws|].byteLen == 0;
    }
  }

  lemma {:induction false} IncomingSnoc(ws: seq<Rx.Completion>, w: Rx.Completion)
    requires Rx.Fits(ws) && Rx.FitsOne(w)
    ensures Rx.Fits(ws + [w]) && Rx.Incoming(ws + [w]) == Rx.Incoming(ws) + w.chunk.buffer[..w.byteLen]
  {
    var ws2 := ws + [w];
    if ws == [] {
      assert ws2 == [w] && ws2[1..] == [];
    } else {
      assert ws2[1..] == ws[1..] + [w];
      IncomingSnoc(ws[1..], w);
    }
  }
}
