/**
 The sending half of the RDMA socket: `send`, `submit` and the copy into registered chunks
 (hardware_async/rdma/RDMAReliableConnectedSocketImpl.cc 530-703), with the pool grant and the
 bookkeeping of `get_reged_mem` and `post_tx_buffer` (hardware_async/rdma/RDMAStack.cc 416-426, 503-523).
 */
module SocketTx {
  import opened Bytes
  import opened Chunks

  const EAGAIN := 11
  const EPIPE := 32

  /**
   What a send hands to the hardware: full packets, the last one maybe shorter, none empty (an empty one
   means FIN).
   */
  predicate Slices(packets: seq<seq<byte>>, size: nat) {
    && (forall i | 0 <= i < |packets| :: 0 < |packets[i]| <= size)
    && (forall i | 0 <= i < |packets| - 1 :: |packets[i]| == size)
  }

  /** What `submit` posts when `bytes` are pending and `free` chunks are in the pool. */
  ghost predicate Submits(bytes: seq<byte>, free: nat, size: nat, packets: seq<seq<byte>>)
    requires size > 0
  {
    && |packets| == Min(ChunksFor(|bytes|, size), free)
    && Slices(packets, size)
    && Flatten(packets) == bytes[..Min(|bytes|, Capacity(|packets|, size))]
  }

  lemma {:induction false} FlattenLength(packets: seq<seq<byte>>, size: nat)
    requires forall i | 0 <= i < |packets| :: |packets[i]| == size
    ensures |Flatten(packets)| == Capacity(|packets|, size)
  {
    if packets != [] {
      FlattenLength(packets[1..], size);
    }
  }

  /** What `splice` and `swap` leave of a buffer list once n bytes are taken off its front. */
  function DropBytes(bl: seq<seq<byte>>, n: nat): (r: seq<seq<byte>>)
    requires n <= |Flatten(bl)|
    ensures Flatten(r) == Flatten(bl)[n..]
  {
    if n == 0 then bl
    else if n >= |bl[0]| then DropBytes(bl[1..], n - |bl[0]|)
    else [bl[0][n..]] + bl[1..]
  }

  /** Chunks before k hold packets, chunk k holds part, the others are untouched. */
  ghost predicate Filling(tx: seq<Chunk>, k: nat, packets: seq<seq<byte>>, part: seq<byte>, size: nat)
    reads tx, Memory(tx)
  {
    && k == |packets| < |tx|
    && (forall c: Chunk | c in tx :: c.Valid() && c.bytes == size)
    && (forall j | 0 <= j < k :: tx[j].Written() == packets[j])
    && tx[k].Written() == part && |part| <= size
    && (forall j | k < j < |tx| :: tx[j].offset == 0)
  }

  ghost predicate Holds(tx: seq<Chunk>, packets: seq<seq<byte>>)
    reads tx, Memory(tx)
  {
    |tx| == |packets| && forall j | 0 <= j < |tx| :: tx[j].Valid() && tx[j].Written() == packets[j]
  }

  /** One `Chunk::write`, seen from the whole grant. */
  method WriteSome(tx: seq<Chunk>, k: nat, src: seq<byte>, size: nat, ghost packets: seq<seq<byte>>,
      ghost part: seq<byte>)
    returns (r: nat)
    requires Filling(tx, k, packets, part, size) && Apart(tx)
    modifies Memory(tx)
    ensures r == Min(|src|, size - |part|) && |part| + r <= size
    ensures Filling(tx, k, packets, part + src[..r], size)
    ensures tx[k].Full() <==> |part| + r == size
  {
    r := tx[k].Write(src);
    forall j | 0 <= j < k
      ensures tx[j].Written() == packets[j]
    {
      assert tx[j] != tx[k] && tx[j].buffer != tx[k].buffer;
    }
  }

  lemma NextChunk(tx: seq<Chunk>, k: nat, packets: seq<seq<byte>>, part: seq<byte>, size: nat)
    requires Filling(tx, k, packets, part, size)
    ensures k + 1 < |tx| ==> Filling(tx, k + 1, packets + [part], [], size)
    ensures k + 1 == |tx| ==> Holds(tx, packets + [part])
  {
  }

  /** Where the copy stands: the packets so far are the stream up to byte `total`. */
  ghost predicate CopiedTo(packets: seq<seq<byte>>, part: seq<byte>, size: nat, prefix: seq<byte>) {
    && (forall i | 0 <= i < |packets| :: |packets[i]| == size)
    && Flatten(packets) + part == prefix
  }

  lemma CopiedMore(packets: seq<seq<byte>>, part: seq<byte>, size: nat, prefix: seq<byte>, more: seq<byte>)
    requires CopiedTo(packets, part, size, prefix)
    ensures CopiedTo(packets, part + more, size, prefix + more)
    ensures |part + more| == size ==> CopiedTo(packets + [part + more], [], size, prefix + more)
  {
    assert Flatten(packets) + (part + more) == Flatten(packets) + part + more;
    FlattenSnoc(packets, part + more);
    assert Flatten(packets) + (part + more) + [] == prefix + more;
  }

  lemma LastIndex(n: nat, k: nat, p: nat, total: nat, size: nat)
    requires size > 0 && k < n <= ChunksFor(total, size) && total == Capacity(k, size) + p && p < size
    ensures n == k + 1 && 0 < p && total <= Capacity(n, size)
  {
    ChunksForBounds(total, size);
    var need := ChunksFor(total, size);
    MulMonotone(size, k, need - 1);
    assert (k + 1) * size == k * size + size;
    if k + 1 <= need - 1 {
      MulMonotone(size, k + 1, need - 1);
    }
  }

  /** All the bytes fitted: the grant was no larger than needed, so its last chunk is in use. */
  lemma LastChunkInUse(n: nat, packets: seq<seq<byte>>, part: seq<byte>, size: nat, stream: seq<byte>)
    requires size > 0 && |packets| < n <= ChunksFor(|stream|, size)
    requires CopiedTo(packets, part, size, stream) && |part| < size
    ensures n == |packets| + 1 && 0 < |part| && |stream| <= Capacity(n, size)
    ensures Slices(packets + [part], size) && Flatten(packets + [part]) == stream
  {
    FlattenLength(packets, size);
    LastIndex(n, |packets|, |part|, |stream|, size);
    FlattenSnoc(packets, part);
  }

  lemma FillingStart(tx: seq<Chunk>, size: nat)
    requires tx != [] && size > 0 && forall c | c in tx :: Blank(c) && c.bytes == size
    ensures Filling(tx, 0, [], [], size) && CopiedTo([], [], size, [])
  {
    assert tx[0] in tx;
    assert tx[0].Written() == [];
    forall j | 0 < j < |tx|
      ensures tx[j].offset == 0
    {
      assert tx[j] in tx;
    }
  }

  /** The stream around piece b, of which `copied` bytes are done. */
  lemma PieceAt(bufs: seq<seq<byte>>, b: nat, copied: nat)
    requires b < |bufs| && copied <= |bufs[b]|
    ensures Flatten(bufs[..b]) + bufs[b][..copied] <= Flatten(bufs)
    ensures copied == 0 ==> Flatten(bufs[..b]) + bufs[b][..copied] == Flatten(bufs[..b])
    ensures copied == |bufs[b]| ==> Flatten(bufs[..b]) + bufs[b][..copied] == Flatten(bufs[..b + 1])
  {
    assert bufs[..b + 1] == bufs[..b] + [bufs[b]] && bufs == bufs[..b + 1] + bufs[b + 1..];
    FlattenSnoc(bufs[..b], bufs[b]);
    FlattenConcat(bufs[..b + 1], bufs[b + 1..]);
    assert bufs[b] == bufs[b][..copied] + bufs[b][copied..];
    assert Flatten(bufs) == Flatten(bufs[..b]) + bufs[b][..copied] + (bufs[b][copied..] + Flatten(bufs[b + 1..]));
  }

  /** Every granted chunk is full before the bytes run out. */
  lemma AllFull(n: nat, packets: seq<seq<byte>>, size: nat, prefix: seq<byte>, stream: seq<byte>)
    requires size > 0 && |packets| == n && CopiedTo(packets, [], size, prefix) && prefix <= stream
    ensures |prefix| == Capacity(n, size) == Min(|stream|, Capacity(n, size))
    ensures Slices(packets, size) && Flatten(packets) == stream[..|prefix|]
  {
    FlattenLength(packets, size);
    assert Flatten(packets) + [] == Flatten(packets);
  }

  /**
   The nested copy loops: bufs into the granted chunks, piece after piece, chunk after chunk, until
   either side is used up. The index of the next chunk is tested before that chunk is looked up.
   */
  method CopyIntoChunks(tx: seq<Chunk>, bufs: seq<seq<byte>>, size: nat)
    returns (total: nat, ghost packets: seq<seq<byte>>)
    requires size > 0 && 0 < |tx| <= ChunksFor(|Flatten(bufs)|, size)
    requires Apart(tx) && forall c | c in tx :: Blank(c) && c.bytes == size
    modifies Memory(tx)
    ensures total == Min(|Flatten(bufs)|, Capacity(|tx|, size))
    ensures Holds(tx, packets) && Slices(packets, size) && Flatten(packets) == Flatten(bufs)[..total]
    ensures forall c | c in tx :: c.Valid()
  {
    hide Filling, Holds, Apart, CopiedTo, Flatten, Slices, Blank;
    ghost var stream := Flatten(bufs);
    ghost var prefix: seq<byte>, part: seq<byte> := [], [];
    packets, total := [], 0;
    FillingStart(tx, size);
    var k, b := 0, 0;
    assert bufs[..b] == [];
    while b < |bufs|
      invariant b <= |bufs| && prefix == Flatten(bufs[..b]) && total == |prefix|
      invariant k < |tx| && Filling(tx, k, packets, part, size) && |packets| == k && |part| < size
      invariant CopiedTo(packets, part, size, prefix)
    {
      var copied := 0;
      PieceAt(bufs, b, 0);
      while copied < |bufs[b]|
        invariant copied <= |bufs[b]| && prefix == Flatten(bufs[..b]) + bufs[b][..copied] && total == |prefix|
        invariant k < |tx| && Filling(tx, k, packets, part, size) && |packets| == k && |part| < size
        invariant CopiedTo(packets, part, size, prefix)
      {
        var src := bufs[b][copied..];
        var r := WriteSome(tx, k, src, size, packets, part);
        CopiedMore(packets, part, size, prefix, src[..r]);
        NextChunk(tx, k, packets, part + src[..r], size);
        AddSome(Flatten(bufs[..b]), bufs[b], copied, r);
        prefix, part := prefix + src[..r], part + src[..r];
        copied, total := copied + r, total + r;
        if tx[k].Full() {
          packets, part := packets + [part], [];
          k := k + 1;
          if k == |tx| {
            PieceAt(bufs, b, copied);
            AllFull(|tx|, packets, size, prefix, stream);
            return;
          }
        }
      }
      PieceAt(bufs, b, copied);
      b := b + 1;
    }
    assert bufs[..b] == bufs;
    LastChunkInUse(|tx|, packets, part, size, stream);
    NextChunk(tx, k, packets, part, size);
    packets := packets + [part];
  }

  lemma AddSome(before: seq<byte>, piece: seq<byte>, copied: nat, r: nat)
    requires copied + r <= |piece|
    ensures before + piece[..copied] + piece[copied..][..r] == before + piece[..copied + r]
  {
  }

  lemma {:induction false} CountElements(cs: seq<Chunk>)
    requires forall i, j | 0 <= i < j < |cs| :: cs[i] != cs[j]
    ensures |Elements(cs)| == |cs|
  {
    if cs != [] {
      var rest := cs[..|cs| - 1];
      CountElements(rest);
      assert Elements(cs) == Elements(rest) + {cs[|cs| - 1]};
    } else {
      assert Elements(cs) == {};
    }
  }

  lemma CountSubset(a: set<Chunk>, b: set<Chunk>)
    requires a <= b
    ensures |a| <= |b| && |b - a| == |b| - |a|
  {
    assert b == a + (b - a);
  }

  /**
   A worker with the pool it shares through the dispatcher: how many chunks are out (`inflight`),
   which of them the hardware holds (`posted`), and the sockets waiting for more.
   */
  class Worker {
    const pool: Cluster
    var inflight: nat
    var pendingSentConns: seq<Socket>
    /** This worker is in the dispatcher's list of pending workers. */
    var waiting: bool

    ghost predicate Valid()
      reads this, pool, pool.freeChunks
    {
      pool.Valid() && inflight == |pool.lent|
    }

    constructor (pool: Cluster)
      requires pool.Valid() && pool.lent == {}
      ensures Valid() && this.pool == pool && pendingSentConns == [] && !waiting
    {
      this.pool, inflight := pool, 0;
      pendingSentConns, waiting := [], false;
    }

    /** Completed chunks return to the pool; `notify`: then a pending worker is notified. */
    method PostTxBuffer(chunks: seq<Chunk>) returns (notify: bool)
      requires Valid() && Elements(chunks) <= pool.lent && forall c | c in chunks :: c.Valid()
      requires forall i, j | 0 <= i < j < |chunks| :: chunks[i] != chunks[j]
      modifies this`inflight, pool`freeChunks, pool`lent, chunks
      ensures Valid() && inflight == old(inflight) - |chunks|
      ensures pool.freeChunks == old(pool.freeChunks) + chunks && pool.lent == old(pool.lent) - Elements(chunks)
      ensures notify <==> |pool.freeChunks| > |old(pool.freeChunks)|
    {
      hide pool.Valid;
      if chunks == [] {
        return false;
      }
      CountElements(chunks);
      CountSubset(Elements(chunks), pool.lent);
      inflight := inflight - |chunks|;
      pool.TakeBack(chunks);
      notify := true;
    }

    /** A grant from the pool; a socket that does not get all it needs is parked, once. */
    method GetRegedMem(o: Socket, bytes: nat) returns (chunks: seq<Chunk>)
      requires Valid() && bytes > 0
      modifies this`inflight, this`pendingSentConns, this`waiting, o`pending, pool`freeChunks, pool`lent
      ensures Valid() && inflight == old(inflight) + |chunks|
      ensures |chunks| == Min(ChunksFor(bytes, pool.bufferSize), |old(pool.freeChunks)|)
      ensures pool.freeChunks == old(pool.freeChunks)[..|old(pool.freeChunks)| - |chunks|]
      ensures pool.lent == old(pool.lent) + Elements(chunks) && Elements(chunks) !! old(pool.lent)
      ensures (forall c | c in chunks :: c in old(pool.freeChunks) && Blank(c) && c.bytes == pool.bufferSize)
              && Apart(chunks)
      ensures o.pending == (old(o.pending) || Capacity(|chunks|, pool.bufferSize) < bytes)
      ensures waiting == (old(waiting) || Capacity(|chunks|, pool.bufferSize) < bytes)
      ensures pendingSentConns
           == old(pendingSentConns) + if Capacity(|chunks|, pool.bufferSize) < bytes && !old(o.pending) then [o] else []
    {
      hide pool.Valid, Blank, Apart, ChunksFor, Capacity, Elements;
      chunks := Take(bytes);
      if Capacity(|chunks|, pool.bufferSize) >= bytes {
        return;
      }
      Park(o);
    }

    method Take(bytes: nat) returns (chunks: seq<Chunk>)
      requires Valid() && bytes > 0
      modifies this`inflight, pool`freeChunks, pool`lent
      ensures Valid() && inflight == old(inflight) + |chunks|
      ensures |chunks| == Min(ChunksFor(bytes, pool.bufferSize), |old(pool.freeChunks)|)
      ensures pool.freeChunks == old(pool.freeChunks)[..|old(pool.freeChunks)| - |chunks|]
      ensures pool.lent == old(pool.lent) + Elements(chunks) && Elements(chunks) !! old(pool.lent)
      ensures (forall c | c in chunks :: c in old(pool.freeChunks) && Blank(c) && c.bytes == pool.bufferSize)
              && Apart(chunks)
    {
      hide pool.Valid, ChunksFor, Blank;
      chunks := pool.GetBuffers(bytes);
      CountElements(chunks);
      inflight := inflight + |chunks|;
    }

    method Park(o: Socket)
      modifies this`pendingSentConns, this`waiting, o`pending
      ensures o.pending && waiting
      ensures pendingSentConns == old(pendingSentConns) + if !old(o.pending) then [o] else []
    {
      if !o.pending {
        pendingSentConns := pendingSentConns + [o];
        o.pending := true;
      }
      waiting := true;
    }

    /** Grant, then copy: the part of `submit` that fills tx_buffers. */
    method FillTx(o: Socket, bufs: seq<seq<byte>>) returns (tx: seq<Chunk>, total: nat, ghost packets: seq<seq<byte>>)
      requires Valid() && Flatten(bufs) != []
      modifies this`inflight, this`pendingSentConns, this`waiting, o`pending, pool`freeChunks, pool`lent
      modifies Memory(pool.freeChunks)
      ensures total <= |Flatten(bufs)| && Flatten(packets) == Flatten(bufs)[..total]
      ensures Holds(tx, packets) && Slices(packets, pool.bufferSize) && (total == 0 <==> tx == [])
      ensures o.pending == (old(o.pending) || total < |Flatten(bufs)|) && waiting == (old(waiting)
              || total < |Flatten(bufs)|)
      ensures pendingSentConns == old(pendingSentConns) + if total < |Flatten(bufs)| && !old(o.pending) then [o] else []
      ensures Valid() && inflight == old(inflight) + |tx| && pool.lent == old(pool.lent) + Elements(tx)
      ensures pool.bufferSize > 0 && |tx| == Min(ChunksFor(|Flatten(bufs)|, pool.bufferSize), |old(pool.freeChunks)|)
      ensures |pool.freeChunks| == |old(pool.freeChunks)| - |tx|
      ensures total == Min(|Flatten(bufs)|, Capacity(|tx|, pool.bufferSize))
    {
      hide Slices, Flatten, Apart, Blank, ChunksFor, Capacity, Elements, pool.Valid;
      var need := |Flatten(bufs)|;
      ChunksNeeded(need, pool.bufferSize);
      tx := GetRegedMem(o, need);
      if tx == [] {
        NothingCopied(Flatten(bufs), pool.bufferSize);
        packets, total := [], 0;
        return;
      }
      assert Memory(tx) <= old(Memory(pool.freeChunks));
      pool.FreeNotLent(tx);
      assert forall c | c in pool.freeChunks :: (c as object) !in Memory(tx);
      total, packets := CopyIntoChunks(tx, bufs, pool.bufferSize);
      SliceBytes(packets, pool.bufferSize);
    }
  }

  class Socket {
    const worker: Worker
    var pendingBl: seq<seq<byte>>
    var error: nat
    var connected: bool
    var active: bool
    var pending: bool
    /** The packets handed to the hardware so far, in order. */
    var wire: seq<seq<byte>>

    constructor (worker: Worker)
      ensures this.worker == worker && pendingBl == [] && error == 0 && !connected && !active && !pending && wire == []
    {
      this.worker, pendingBl, wire, error := worker, [], [], 0;
      connected, active, pending := false, false, false;
    }

    /** All the bytes this side has accepted, in order. */
    ghost function Accepted(): seq<byte>
      reads this
    {
      Flatten(wire) + Flatten(pendingBl)
    }

    /** The work requests: one per chunk, as long as what was written to it. errno is what the post returns. */
    method PostWorkRequest(tx: seq<Chunk>, errno: nat, ghost packets: seq<seq<byte>>) returns (r: int)
      requires Holds(tx, packets)
      modifies this`wire
      ensures r == 0 - errno
      ensures wire == old(wire) + (if errno == 0 then packets else [])
    {
      var sges := [];
      for i := 0 to |tx|
        invariant sges == packets[..i]
      {
        sges := sges + [tx[i].buffer[..tx[i].offset]];
      }
      if errno != 0 {
        return 0 - errno;
      }
      assert packets[..|tx|] == packets;
      wire := wire + sges;
      r := 0;
    }

    /**
     Sends exactly the first min(pending, granted chunks * chunk size) bytes, as full packets except
     perhaps the last, and keeps exactly the rest. With too few chunks the socket is parked and the
     call says EAGAIN. errno is what the post would return: when it fails, the bytes taken off the
     list are gone, and their chunks are out without being posted.
     */
    method Submit(errno: nat) returns (r: int, ghost sent: nat, ghost packets: seq<seq<byte>>)
      requires worker.Valid()
      modifies this`pendingBl, this`wire, this`pending
      modifies worker`inflight, worker`pendingSentConns, worker`waiting
      modifies worker.pool`freeChunks, worker.pool`lent, Memory(worker.pool.freeChunks)
      ensures sent <= |Flatten(old(pendingBl))|
      ensures Flatten(packets) == Flatten(old(pendingBl))[..sent]
              && Flatten(pendingBl) == Flatten(old(pendingBl))[sent..]
      ensures Slices(packets, worker.pool.bufferSize)
      ensures wire == old(wire) + (if errno == 0 then packets else [])
      ensures r == if error != 0 then 0 - error
                   else if errno != 0 && packets != [] then 0 - errno
                   else if Flatten(pendingBl) != [] then 0 - EAGAIN
                   else 0
      ensures pending == (old(pending) || (error == 0 && Flatten(pendingBl) != []))
      ensures worker.waiting == (old(worker.waiting) || (error == 0 && Flatten(pendingBl) != []))
      ensures worker.pendingSentConns
           == old(worker.pendingSentConns) + if error == 0 && Flatten(pendingBl) != []
               && !old(pending) then [this] else []
      ensures worker.Valid() && worker.inflight == old(worker.inflight) + |packets|
      ensures error != 0 ==> packets == []
      ensures error == 0 ==>
                && worker.pool.bufferSize > 0
                && Submits(Flatten(old(pendingBl)), |old(worker.pool.freeChunks)|, worker.pool.bufferSize, packets)
                && |worker.pool.freeChunks| == |old(worker.pool.freeChunks)| - |packets|
                && sent == |Flatten(packets)|
    {
      hide Slices, Flatten, Apart, Blank, ChunksFor, Capacity, worker.pool.Valid;
      packets, sent := [], 0;
      NothingCopied(Flatten(pendingBl), worker.pool.bufferSize);
      if error != 0 {
        return 0 - error, sent, packets;
      }
      var bytes := |Flatten(pendingBl)|;
      if bytes == 0 {
        return 0, sent, packets;
      }
      r, sent, packets := SubmitSome(errno);
    }

    /** `submit` with something to send. */
    method SubmitSome(errno: nat) returns (r: int, ghost sent: nat, ghost packets: seq<seq<byte>>)
      requires worker.Valid() && Flatten(pendingBl) != []
      modifies this`pendingBl, this`wire, this`pending
      modifies worker`inflight, worker`pendingSentConns, worker`waiting
      modifies worker.pool`freeChunks, worker.pool`lent, Memory(worker.pool.freeChunks)
      ensures sent <= |Flatten(old(pendingBl))|
      ensures Flatten(packets) == Flatten(old(pendingBl))[..sent]
              && Flatten(pendingBl) == Flatten(old(pendingBl))[sent..]
      ensures Slices(packets, worker.pool.bufferSize)
      ensures wire == old(wire) + (if errno == 0 then packets else [])
      ensures r == if errno != 0 && packets != [] then 0 - errno else if Flatten(pendingBl) != [] then 0 - EAGAIN else 0
      ensures pending == (old(pending) || Flatten(pendingBl) != [])
      ensures worker.waiting == (old(worker.waiting) || Flatten(pendingBl) != [])
      ensures worker.pendingSentConns
           == old(worker.pendingSentConns) + if Flatten(pendingBl) != [] && !old(pending) then [this] else []
      ensures worker.Valid() && worker.inflight == old(worker.inflight) + |packets|
      ensures worker.pool.bufferSize > 0
      ensures Submits(Flatten(old(pendingBl)), |old(worker.pool.freeChunks)|, worker.pool.bufferSize, packets)
      ensures |worker.pool.freeChunks| == |old(worker.pool.freeChunks)| - |packets| && sent == |Flatten(packets)|
    {
      hide Slices, Flatten, Apart, Blank, ChunksFor, Capacity, worker.pool.Valid, DropBytes, Elements, Holds;
      var need := CountBytes();
      var tx, total;
      NotAChunk(this, worker.pool.freeChunks);
      tx, total, packets := worker.FillTx(this, pendingBl);
      label Filled:
      HoldsLength(tx, packets);
      sent := total;
      if total == 0 {
        NoBytesTaken(Flatten(pendingBl), tx, packets);
        return 0 - EAGAIN, sent, packets;
      }
      TakeOff(total);
      assert unchanged@Filled(tx, Memory(tx)) by {
        NotAChunk(this, tx);
      }
      r := PostWorkRequest(tx, errno, packets);
      if r < 0 {
        return r, sent, packets;
      }
      r := if |Flatten(pendingBl)| > 0 then 0 - EAGAIN else 0;
    }

    method TakeOff(total: nat)
      requires total <= |Flatten(pendingBl)|
      modifies this`pendingBl
      ensures Flatten(pendingBl) == Flatten(old(pendingBl))[total..]
    {
      if total < |Flatten(pendingBl)| {
        pendingBl := DropBytes(pendingBl, total);
      } else {
        pendingBl := [];
      }
    }

    /** The pass over the list that adds up what has to be copied. */
    method CountBytes() returns (need: nat)
      ensures need == |Flatten(pendingBl)|
    {
      var it := 0;
      need := 0;
      assert pendingBl[..it] == [];
      while it < |pendingBl|
        invariant it <= |pendingBl| && need == |Flatten(pendingBl[..it])|
      {
        assert pendingBl[..it + 1] == pendingBl[..it] + [pendingBl[it]];
        FlattenSnoc(pendingBl[..it], pendingBl[it]);
        need := need + |pendingBl[it]|;
        it := it + 1;
      }
      assert pendingBl[..it] == pendingBl;
    }

    /**
     Bytes handed to `send` are accepted whole, before and after the handshake, and are then on the
     wire or pending, in order; before the handshake nothing is posted. An empty list, a broken socket
     and a closed one accept nothing. (errno 0: the post, if there is one, succeeds.) The error of a
     failed post is the result, unless it is EAGAIN, which looks like a short grant.
     */
    method Send(bl: seq<seq<byte>>, errno: nat) returns (r: int, ghost packets: seq<seq<byte>>)
      requires worker.Valid()
      modifies this`pendingBl, this`wire, this`pending
      modifies worker`inflight, worker`pendingSentConns, worker`waiting
      modifies worker.pool`freeChunks, worker.pool`lent, Memory(worker.pool.freeChunks)
      ensures worker.Valid()
      ensures error != 0 ==> r == (if active then 0 - error else 0 - EPIPE) && Accepted() == old(Accepted())
      ensures error == 0 && (errno == 0 || !connected) ==>
                r == |Flatten(bl)| && Accepted() == old(Accepted()) + Flatten(bl)
      ensures !connected ==> wire == old(wire)
      ensures error == 0 && connected && Flatten(bl) != [] && errno == 0 && Flatten(pendingBl) != [] ==>
                pending && worker.waiting
      ensures error == 0 && connected && Flatten(bl) != [] ==>
                && Submitted(errno, old(Flatten(pendingBl)) + Flatten(bl), old(wire), old(|worker.pool.freeChunks|),
                             old(worker.inflight), packets)
                && r == if errno != 0 && errno != EAGAIN && packets != [] then 0 - errno else |Flatten(bl)|
      ensures error == 0 && (!connected || Flatten(bl) == []) ==>
                && packets == [] && Flatten(pendingBl) == old(Flatten(pendingBl)) + Flatten(bl) && wire == old(wire)
                && worker.pool.freeChunks == old(worker.pool.freeChunks) && worker.inflight == old(worker.inflight)
    {
      hide Slices, Apart, Blank, ChunksFor, Capacity, worker.pool.Valid, Flatten, Submits;
      packets := [];
      if error != 0 {
        r := if active then 0 - error else 0 - EPIPE;
        return;
      }
      var bytes := |Flatten(bl)|;
      if bytes == 0 {
        assert Accepted() + Flatten(bl) == Accepted() && Flatten(pendingBl) + Flatten(bl) == Flatten(pendingBl);
        return 0, packets;
      }
      pendingBl := pendingBl + bl;
      FlattenConcat(old(pendingBl), bl);
      assert Accepted() == old(Accepted()) + Flatten(bl);
      if !connected {
        return bytes, packets;
      }
      r, packets := Flush(errno);
      if r < 0 && r != 0 - EAGAIN {
        return;
      }
      r := bytes;
    }

    /**
     Of the pending bytes those of the packets were posted, or are lost if the post failed, and the rest
     is pending; free, out and before are what was before.
     */
    ghost predicate Submitted(errno: nat, bytes: seq<byte>, before: seq<seq<byte>>, free: nat, out: nat,
        packets: seq<seq<byte>>)
      reads this, worker, worker.pool
    {
      && worker.pool.bufferSize > 0 && Submits(bytes, free, worker.pool.bufferSize, packets)
      && |Flatten(packets)| <= |bytes| && Flatten(pendingBl) == bytes[|Flatten(packets)|..]
      && wire == before + (if errno == 0 then packets else [])
      && |worker.pool.freeChunks| == free - |packets| && worker.inflight == out + |packets|
    }

    /** `submit` moves bytes from the pending list to the wire and loses none unless the post fails. */
    method Flush(errno: nat) returns (r: int, ghost packets: seq<seq<byte>>)
      requires worker.Valid()
      modifies this`pendingBl, this`wire, this`pending
      modifies worker`inflight, worker`pendingSentConns, worker`waiting
      modifies worker.pool`freeChunks, worker.pool`lent, Memory(worker.pool.freeChunks)
      ensures worker.Valid()
      ensures errno == 0 || packets == [] ==> Accepted() == old(Accepted())
      ensures r == if error != 0 then 0 - error
                   else if errno != 0 && packets != [] then 0 - errno
                   else if Flatten(pendingBl) != [] then 0 - EAGAIN
                   else 0
      ensures error == 0 && Flatten(pendingBl) != [] ==> pending && worker.waiting
      ensures error == 0 ==>
                Submitted(errno, old(Flatten(pendingBl)), old(wire), old(|worker.pool.freeChunks|),
                          old(worker.inflight), packets)
    {
      hide Slices, Apart, Blank, ChunksFor, Capacity, worker.pool.Valid, Flatten, Submits;
      NotAChunk(this, worker.pool.freeChunks);
      ghost var sent;
      r, sent, packets := Submit(errno);
      Moved(old(wire), packets, Flatten(old(pendingBl)), sent);
    }

    /** The end of the handshake: what was accepted before goes out now, in order. */
    method HandshakeDone(errno: nat) returns (r: int, ghost packets: seq<seq<byte>>)
      requires worker.Valid()
      modifies this`connected, this`pendingBl, this`wire, this`pending
      modifies worker`inflight, worker`pendingSentConns, worker`waiting
      modifies worker.pool`freeChunks, worker.pool`lent, Memory(worker.pool.freeChunks)
      ensures worker.Valid() && connected
      ensures errno == 0 ==> Accepted() == old(Accepted())
      ensures error == 0 && Flatten(pendingBl) != [] ==> pending && worker.waiting
      ensures error == 0 ==>
                Submitted(errno, old(Flatten(pendingBl)), old(wire), old(|worker.pool.freeChunks|),
                          old(worker.inflight), packets)
    {
      hide worker.pool.Valid, Flatten, Submitted;
      NotAChunk(this, worker.pool.freeChunks);
      connected := true;
      r, packets := Flush(errno);
    }
  }

  lemma Moved(wire: seq<seq<byte>>, packets: seq<seq<byte>>, was: seq<byte>, sent: nat)
    requires sent <= |was| && Flatten(packets) == was[..sent]
    ensures Flatten(wire + packets) + was[sent..] == Flatten(wire) + was
  {
    FlattenConcat(wire, packets);
    assert was == was[..sent] + was[sent..];
  }

  lemma NoBytesTaken(s: seq<byte>, tx: seq<Chunk>, packets: seq<seq<byte>>)
    requires tx == [] && Holds(tx, packets)
    ensures s[0..] == s && packets == []
  {
  }

  lemma HoldsLength(tx: seq<Chunk>, packets: seq<seq<byte>>)
    requires Holds(tx, packets)
    ensures |tx| == |packets|
  {
  }

  lemma NothingCopied(stream: seq<byte>, size: nat)
    ensures Slices([], size) && Flatten([]) == stream[..0] && Holds([], []) && Capacity(0, size) == 0
    ensures size > 0 ==> ChunksFor(0, size) == 0
  {
  }

  lemma ChunksNeeded(bytes: nat, size: nat)
    requires size > 0 && bytes > 0
    ensures ChunksFor(bytes, size) > 0
  {
    ChunksForBounds(bytes, size);
  }

  lemma SliceBytes(packets: seq<seq<byte>>, size: nat)
    requires Slices(packets, size) && packets != []
    ensures |Flatten(packets)| > 0
  {
  }
}
