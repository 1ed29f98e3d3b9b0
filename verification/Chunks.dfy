/**
 Registered chunks and the bounded pool of transmit chunks
 (hardware_async/rdma/Infiniband.cc 503-634, Infiniband.h 131-180).
 */
module Chunks {
  import opened Bytes

  class Chunk {
    const bytes: nat
    const buffer: array<byte>
    var offset: nat
    var bound: nat

    ghost predicate Valid()
      reads this
    {
      buffer.Length == bytes && offset <= bytes
    }

    /** Sending: the bytes written since the last Clear; a posted chunk sends exactly these. */
    ghost function Written(): seq<byte>
      requires Valid()
      reads this, buffer
    {
      buffer[..offset]
    }

    /** Receiving: the bytes not read yet. */
    ghost function Unread(): seq<byte>
      requires Valid() && offset <= bound <= bytes
      reads this, buffer
    {
      buffer[offset..bound]
    }

    constructor (bytes: nat)
      ensures Valid() && this.bytes == bytes && offset == 0 && bound == 0 && fresh(buffer)
    {
      this.bytes := bytes;
      buffer := new byte[bytes];
      offset, bound := 0, 0;
    }

    method PrepareRead(b: nat)
      modifies this
      ensures offset == 0 && bound == b
    {
      offset, bound := 0, b;
    }

    method Read(dst: array<byte>, at: nat, len: nat) returns (n: nat)
      requires Valid() && offset <= bound <= bytes
      requires dst != buffer && at + Min(len, bound - offset) <= dst.Length
      modifies this, dst
      ensures Valid() && offset <= bound <= bytes
      ensures n == Min(len, |old(Unread())|)
      ensures dst[..at] == old(dst[..at]) && dst[at..at + n] == old(Unread())[..n]
              && dst[at + n..] == old(dst[at + n..])
      ensures Unread() == old(Unread())[n..]
    {
      var left := bound - offset;
      if left >= len {
        Copy(buffer, offset, dst, at, len);
        assert buffer[offset..bound] == buffer[offset..offset + len] + buffer[offset + len..bound];
        offset := offset + len;
        return len;
      } else {
        Copy(buffer, offset, dst, at, left);
        offset := 0;
        bound := 0;
        return left;
      }
    }

    method Write(src: seq<byte>) returns (n: nat)
      requires Valid()
      modifies this`offset, buffer
      ensures Valid() && bound == old(bound)
      ensures n == Min(|src|, bytes - old(offset)) && offset == old(offset) + n
      ensures Written() == old(Written()) + src[..n]
    {
      var left := bytes - offset;
      if left >= |src| {
        Fill(buffer, offset, src);
        n := |src|;
      } else {
        Fill(buffer, offset, src[..left]);
        n := left;
      }
      assert buffer[..offset + n] == buffer[..offset] + buffer[offset..offset + n];
      offset := offset + n;
    }

    predicate Full()
      reads this
    {
      offset == bytes
    }

    predicate Over()
      reads this
    {
      offset == bound
    }

    method Clear()
      modifies this
      ensures offset == 0 && bound == 0
    {
      offset, bound := 0, 0;
    }
  }

  /** Different chunks with different memory. */
  ghost predicate Apart(cs: seq<Chunk>) {
    && (forall i, j | 0 <= i < j < |cs| :: cs[i] != cs[j])
    && (forall i, j | 0 <= i < j < |cs| :: cs[i].buffer != cs[j].buffer)
  }

  /** The heap a list of chunks occupies. */
  ghost function Memory(cs: seq<Chunk>): set<object> {
    (set c: Chunk | c in cs :: c as object) + (set c: Chunk | c in cs :: c.buffer as object)
  }

  ghost predicate Blank(c: Chunk)
    reads c
  {
    c.Valid() && c.offset == 0 && c.bound == 0
  }

  function Elements(cs: seq<Chunk>): set<Chunk> {
    set c | c in cs
  }

  /** The chunks needed for a number of bytes. */
  function ChunksFor(bytes: nat, size: nat): nat
    requires size > 0
  {
    if bytes % size == 0 then bytes / size else bytes / size + 1
  }

  /** The bytes n chunks hold. */
  function Capacity(n: nat, size: nat): nat {
    n * size
  }

  /** ChunksFor is the least number of chunks that hold the bytes. */
  lemma ChunksForBounds(bytes: nat, size: nat)
    requires size > 0
    ensures bytes <= Capacity(ChunksFor(bytes, size), size)
    ensures bytes == 0 <==> ChunksFor(bytes, size) == 0
    ensures bytes > 0 ==> Capacity(ChunksFor(bytes, size) - 1, size) < bytes
  {
  }

  /**
   The transmit pool. Ghost state: `all` is what Fill made, `lent` is what GetBuffers handed out and
   TakeBack has not seen again. In every state the free and the lent chunks partition `all`, and a
   free chunk is blank, so each send starts on clean chunks.
   */
  class Cluster {
    const bufferSize: nat
    var freeChunks: seq<Chunk>
    ghost var all: set<Chunk>
    ghost var lent: set<Chunk>

    ghost predicate Valid()
      reads this, freeChunks
      ensures Valid() ==> bufferSize > 0
    {
      && bufferSize > 0
      && (forall i, j | 0 <= i < j < |freeChunks| :: freeChunks[i] != freeChunks[j])
      && (forall c | c in freeChunks :: Blank(c))
      && Elements(freeChunks) + lent == all && Elements(freeChunks) !! lent
      && (forall c | c in all :: c.bytes == bufferSize)
      && (forall c, d | c in all && d in all && c != d :: c.buffer != d.buffer)
    }

    constructor (bufferSize: nat)
      requires bufferSize > 0
      ensures Valid() && this.bufferSize == bufferSize && all == {} && lent == {} && freeChunks == []
    {
      this.bufferSize := bufferSize;
      freeChunks, all, lent := [], {}, {};
    }

    /** One chunk more, as Fill makes them. */
    method Carve()
      requires Valid()
      modifies this`freeChunks, this`all
      ensures Valid() && |freeChunks| == |old(freeChunks)| + 1
      ensures fresh(all - old(all))
    {
      var chunk := new Chunk(bufferSize);
      freeChunks, all := freeChunks + [chunk], all + {chunk};
    }

    /** Carves num chunks out of one block; the offsets advance by the chunk size. */
    method Fill(num: nat)
      requires Valid() && freeChunks == [] && all == lent == {}
      modifies this`freeChunks, this`all
      ensures Valid() && |freeChunks| == num && fresh(all)
    {
      hide Valid, Elements, Blank;
      var offset := 0;
      while offset < bufferSize * num
        invariant offset == bufferSize * |freeChunks| && |freeChunks| <= num
        invariant bufferSize > 0 && Valid() && fresh(all)
        decreases num - |freeChunks|
      {
        MulOrder(bufferSize, |freeChunks|, num);
        Carve();
        offset := offset + bufferSize;
      }
      MulOrder(bufferSize, |freeChunks|, num);
    }

    /** One chunk from the back of the free list. */
    method Pop() returns (c: Chunk)
      requires Valid() && freeChunks != []
      modifies this`freeChunks, this`lent
      ensures Valid()
      ensures freeChunks == old(freeChunks)[..|old(freeChunks)| - 1] && c == old(freeChunks)[|old(freeChunks)| - 1]
      ensures c !in old(lent) && lent == old(lent) + {c} && c in all && Blank(c)
    {
      c := freeChunks[|freeChunks| - 1];
      freeChunks := freeChunks[..|freeChunks| - 1];
      lent := lent + {c};
    }

    /** One chunk to the back of the free list. */
    method Push(c: Chunk)
      requires Valid() && c in lent && c.Valid()
      modifies this`freeChunks, this`lent, c
      ensures Valid() && c.Valid()
      ensures freeChunks == old(freeChunks) + [c] && lent == old(lent) - {c}
    {
      assert c !in freeChunks;
      c.Clear();
      freeChunks := freeChunks + [c];
      lent := lent - {c};
    }

    lemma FreeNotLent(cs: seq<Chunk>)
      requires Valid() && Elements(cs) <= lent
      ensures forall c | c in freeChunks :: c !in cs
    {
      assert forall c | c in cs :: c in Elements(cs);
      assert forall c | c in freeChunks :: c in Elements(freeChunks);
    }

    /** Lent chunks are apart, wherever they are. */
    lemma LentApart(cs: seq<Chunk>)
      requires Valid() && Elements(cs) <= lent
      requires forall i, j | 0 <= i < j < |cs| :: cs[i] != cs[j]
      ensures Apart(cs) && forall c | c in cs :: c.bytes == bufferSize
    {
      forall i | 0 <= i < |cs|
        ensures cs[i] in all
      {
        assert cs[i] in Elements(cs);
      }
    }

    /** Pops num chunks, the last free one first. */
    method Lend(num: nat) returns (chunks: seq<Chunk>)
      requires Valid() && num <= |freeChunks|
      modifies this`freeChunks, this`lent
      ensures Valid()
      ensures |chunks| == num && freeChunks == old(freeChunks)[..|old(freeChunks)| - num]
      ensures forall i | 0 <= i < num :: chunks[i] == old(freeChunks)[|old(freeChunks)| - 1 - i]
      ensures (forall c | c in chunks :: Blank(c)) && Elements(chunks) !! old(lent)
      ensures forall i, j | 0 <= i < j < num :: chunks[i] != chunks[j]
      ensures lent == old(lent) + Elements(chunks)
    {
      hide Valid, Blank;
      chunks := [];
      for i := 0 to num
        invariant Valid() && |chunks| == i
        invariant freeChunks == old(freeChunks)[..|old(freeChunks)| - i]
        invariant forall k | 0 <= k < i :: chunks[k] == old(freeChunks)[|old(freeChunks)| - 1 - k]
        invariant (forall c | c in chunks :: Blank(c)) && Elements(chunks) !! old(lent)
        invariant forall k, l | 0 <= k < l < i :: chunks[k] != chunks[l]
        invariant lent == old(lent) + Elements(chunks)
      {
        var c := Pop();
        assert c !in Elements(chunks);
        assert Elements(chunks + [c]) == Elements(chunks) + {c};
        chunks := chunks + [c];
      }
    }

    /** A request for no bytes takes everything, in list order. */
    method LendAll() returns (chunks: seq<Chunk>)
      requires Valid()
      modifies this`freeChunks, this`lent
      ensures Valid()
      ensures chunks == old(freeChunks) && freeChunks == []
      ensures (forall c | c in chunks :: Blank(c)) && Elements(chunks) !! old(lent)
      ensures forall i, j | 0 <= i < j < |chunks| :: chunks[i] != chunks[j]
      ensures lent == old(lent) + Elements(chunks)
    {
      chunks := [];
      for i := 0 to |freeChunks|
        invariant chunks == freeChunks[..i]
      {
        chunks := chunks + [freeChunks[i]];
      }
      freeChunks, lent := [], lent + Elements(chunks);
    }

    method Rounded(bytes: nat) returns (num: nat)
      requires bufferSize > 0
      ensures num == ChunksFor(bytes, bufferSize)
    {
      num := bytes / bufferSize + 1;
      if bytes % bufferSize == 0 {
        num := num - 1;
      }
    }

    /**
     As many chunks as the bytes need, from the back of the free list, or what is left when the pool
     runs short. They are blank, apart from each other, and lent to nobody else.
     */
    method GetBuffers(bytes: nat) returns (chunks: seq<Chunk>)
      requires Valid()
      modifies this`freeChunks, this`lent
      ensures Valid()
      ensures |chunks| == if bytes == 0 then |old(freeChunks)| else Min(ChunksFor(bytes, bufferSize), |old(freeChunks)|)
      ensures freeChunks == old(freeChunks)[..|old(freeChunks)| - |chunks|]
      ensures multiset(chunks) + multiset(freeChunks) == multiset(old(freeChunks))
      ensures Apart(chunks) && forall c | c in chunks :: c in old(freeChunks) && Blank(c) && c.bytes == bufferSize
      ensures lent == old(lent) + Elements(chunks) && Elements(chunks) !! old(lent)
    {
      hide Valid, Blank, Apart, Elements, ChunksFor;
      var num := Rounded(bytes);
      if freeChunks == [] {
        chunks := [];
        EmptyGrant(freeChunks);
        return;
      }
      if bytes == 0 {
        chunks := LendAll();
      } else {
        if |freeChunks| < num {
          num := |freeChunks|;
        }
        chunks := Lend(num);
        BackHalf(old(freeChunks), num, chunks);
      }
      LentApart(chunks);
    }

    /** Completed chunks come back, cleared, to the end of the free list. */
    method TakeBack(ck: seq<Chunk>)
      requires Valid() && Elements(ck) <= lent && forall c | c in ck :: c.Valid()
      requires forall i, j | 0 <= i < j < |ck| :: ck[i] != ck[j]
      modifies this`freeChunks, this`lent, ck
      ensures Valid()
      ensures freeChunks == old(freeChunks) + ck && lent == old(lent) - Elements(ck)
    {
      hide Valid;
      for i := 0 to |ck|
        invariant Valid()
        invariant freeChunks == old(freeChunks) + ck[..i] && lent == old(lent) - Elements(ck[..i])
        invariant forall c | c in ck :: c.Valid()
      {
        assert ck[i] in Elements(ck) && ck[i] !in Elements(ck[..i]);
        Push(ck[i]);
        assert ck[..i + 1] == ck[..i] + [ck[i]];
      }
      assert ck[..|ck|] == ck;
    }
  }

  lemma NotAChunk(o: object, cs: seq<Chunk>)
    requires !(o is Chunk) && !(o is array<byte>)
    ensures o !in Memory(cs) && forall i | 0 <= i < |cs| :: (cs[i] as object) != o
  {
  }

  lemma EmptyGrant(free: seq<Chunk>)
    ensures Apart([]) && Elements([]) == {}
    ensures free[..|free|] == free
  {
  }

  lemma {:induction false} MulMonotone(s: nat, a: nat, b: nat)
    requires a <= b
    ensures s * a <= s * b
  {
    if a < b {
      MulMonotone(s, a, b - 1);
      assert s * b == s * (b - 1) + s;
    }
  }

  lemma MulOrder(s: nat, a: nat, b: nat)
    requires s > 0
    ensures s * a < s * b <==> a < b
    ensures s * (a + 1) == s * a + s
  {
    if a < b {
      MulMonotone(s, a, b - 1);
      assert s * b == s * (b - 1) + s;
    } else {
      MulMonotone(s, b, a);
    }
  }

  /** Popping n times splits the list at its end. */
  lemma {:induction false} BackHalf(was: seq<Chunk>, n: nat, popped: seq<Chunk>)
    requires n <= |was| && |popped| == n
    requires forall i | 0 <= i < n :: popped[i] == was[|was| - 1 - i]
    ensures multiset(popped) + multiset(was[..|was| - n]) == multiset(was)
  {
    if n == 0 {
      assert was[..|was|] == was;
    } else {
      var rest := was[..|was| - 1];
      assert was == rest + [popped[0]];
      assert multiset(was) == multiset(rest) + multiset{popped[0]};
      assert multiset(popped) == multiset{popped[0]} + multiset(popped[1..]) by {
        assert popped == [popped[0]] + popped[1..];
      }
      assert was[..|was| - n] == rest[..|rest| - (n - 1)];
      BackHalf(rest, n - 1, popped[1..]);
    }
  }
}
