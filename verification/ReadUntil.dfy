/**
 `read_until`: exactly len bytes out of a socket that hands out its stream in arbitrary fragments,
 with a prefetch buffer for small reads
 (hardware_async/rdma/backed_RDMAReliableConnected.cc 159-180, 219-297).
 */
module ReadUntil {
  import opened Bytes

  /**
   The socket below `read_bulk`. `plan` decides each call: a negative entry is an error or a closed
   peer, k >= 0 makes up to k bytes available (none is EAGAIN). After the plan there is only EAGAIN.
   */
  class Source {
    var incoming: seq<byte>
    var plan: seq<int>

    constructor (incoming: seq<byte>, plan: seq<int>)
      ensures this.incoming == incoming && this.plan == plan
    {
      this.incoming, this.plan := incoming, plan;
    }

    method ReadBulk(dst: array<byte>, at: nat, len: nat) returns (r: int)
      requires at + len <= dst.Length
      modifies this, dst
      ensures -1 <= r <= len
      ensures r < 0 ==> incoming == old(incoming) && dst[..] == old(dst[..])
      ensures r >= 0 ==> old(incoming) == dst[at..at + r] + incoming
      ensures r >= 0 ==> dst[..at] == old(dst[..at]) && dst[at + r..] == old(dst[at + r..])
      ensures plan == old(if plan == [] then [] else plan[1..])
      ensures old(plan) == [] ==> r == 0
    {
      var k := 0;
      if plan != [] {
        k := plan[0];
        plan := plan[1..];
      }
      if k < 0 {
        return -1;
      }
      var n := Min(k, Min(len, |incoming|));
      Fill(dst, at, incoming[..n]);
      incoming := incoming[n..];
      r := n;
    }
  }

  class Reader {
    const recvMaxPrefetch: nat
    const recvBuf: array<byte>
    const source: Source
    var recvStart: nat
    var recvEnd: nat
    var stateOffset: nat

    ghost predicate Shape()
      reads this
    {
      recvBuf.Length == 2 * recvMaxPrefetch && recvStart <= recvEnd <= recvBuf.Length
    }

    /** A read that was begun has emptied the prefetch buffer. */
    ghost predicate Valid()
      reads this
      ensures Valid() ==> Shape()
    {
      Shape() && (stateOffset > 0 ==> recvStart == recvEnd)
    }

    ghost function Buffered(): seq<byte>
      requires Shape()
      reads this, recvBuf
    {
      recvBuf[recvStart..recvEnd]
    }

    constructor (recvMaxPrefetch: nat, source: Source)
      ensures Valid() && Buffered() == [] && stateOffset == 0
      ensures this.source == source && this.recvMaxPrefetch == recvMaxPrefetch && fresh(recvBuf)
    {
      this.recvMaxPrefetch := recvMaxPrefetch;
      this.source := source;
      recvBuf := new byte[2 * recvMaxPrefetch];
      recvStart, recvEnd, stateOffset := 0, 0, 0;
    }

    /** What `fault` does to the receive side. */
    method Reset()
      requires Shape()
      modifies this`recvStart, this`recvEnd, this`stateOffset
      ensures Valid() && Buffered() == [] && stateOffset == 0
    {
      recvStart, recvEnd, stateOffset := 0, 0, 0;
    }

    /**
     The stream at this point is what p already holds, the prefetch buffer and what the socket will
     deliver. On 0 the first len bytes of it are in p and the rest is still to come; a positive
     result is the number of missing bytes, and then nothing is buffered; on an error nothing is lost
     either, but only Reset restores the invariant.
     */
    method ReadUntil(len: nat, p: array<byte>) returns (r: int)
      requires Valid() && (stateOffset == 0 || stateOffset < len)
      requires len <= p.Length && p != recvBuf
      modifies this`recvStart, this`recvEnd, this`stateOffset, recvBuf, source, p
      ensures Shape()
      ensures r >= 0 ==> Valid()
      ensures r == 0 ==>
                && stateOffset == 0
                && p[..len] + Buffered() + source.incoming
                   == old(p[..stateOffset]) + old(Buffered()) + old(source.incoming)
      ensures r > 0 ==>
                && stateOffset < len && r == len - stateOffset && Buffered() == []
                && p[..stateOffset] + source.incoming
                   == old(p[..stateOffset]) + old(Buffered()) + old(source.incoming)
      ensures r < 0 ==>
                && stateOffset <= len
                && p[..stateOffset] + Buffered() + source.incoming
                   == old(p[..stateOffset]) + old(Buffered()) + old(source.incoming)
      ensures |source.plan| <= |old(source.plan)|
      ensures r != 0 ==> source.plan == [] || |source.plan| < |old(source.plan)|
      ensures old(source.plan) == [] ==> r >= 0
    {
      ghost var stream := p[..stateOffset] + Buffered() + source.incoming;
      var left := len - stateOffset;
      if recvEnd > recvStart {
        var toRead := Min(recvEnd - recvStart, left);
        TakePrefetched(toRead, p);
        left := left - toRead;
        assert p[..toRead] + Buffered() + source.incoming == stream;
        if left == 0 {
          return 0;
        }
        stateOffset := stateOffset + toRead;
        assert Buffered() == [];
      }
      recvStart, recvEnd := 0, 0;
      assert p[..stateOffset] + source.incoming == stream;
      if len > recvMaxPrefetch {
        r := ReadLarge(len, p, stream);
      } else {
        r := ReadPrefetch(len, p, stream);
      }
    }

    /** The bytes at hand go to the front of p: the read has only begun. */
    method TakePrefetched(n: nat, p: array<byte>)
      requires Shape() && n <= recvEnd - recvStart && n <= p.Length && p != recvBuf
      modifies this`recvStart, p
      ensures recvStart == old(recvStart) + n && Shape()
      ensures p[..n] + Buffered() == old(Buffered())
    {
      Copy(recvBuf, recvStart, p, 0, n);
      assert p[..n] == p[0..n];
      recvStart := recvStart + n;
    }

    /** A large read goes straight into p. */
    method ReadLarge(len: nat, p: array<byte>, ghost stream: seq<byte>) returns (r: int)
      requires Shape() && recvStart == recvEnd == 0 && stateOffset < len <= p.Length && p != recvBuf
      requires p[..stateOffset] + source.incoming == stream
      modifies this`stateOffset, source, p
      ensures r == 0 ==> stateOffset == 0 && p[..len] + source.incoming == stream
      ensures r != 0 ==> stateOffset < len && p[..stateOffset] + source.incoming == stream
      ensures r > 0 ==> r == len - stateOffset
      ensures |source.plan| <= |old(source.plan)|
      ensures r != 0 ==> source.plan == [] || |source.plan| < |old(source.plan)|
      ensures old(source.plan) == [] ==> r >= 0
    {
      hide Valid;
      var left := len - stateOffset;
      var n := 1;
      while n > 0
        invariant stateOffset < len && left == len - stateOffset && n >= 0
        invariant p[..stateOffset] + source.incoming == stream
        invariant |source.plan| <= |old(source.plan)|
        invariant n == 0 ==> source.plan == [] || |source.plan| < |old(source.plan)|
        decreases n > 0, |source.incoming|, |source.plan|
      {
        n := source.ReadBulk(p, stateOffset, left);
        if n < 0 {
          assert p[..stateOffset] == p[..][..stateOffset];
          return -1;
        }
        assert p[..stateOffset + n] == p[..stateOffset] + p[stateOffset..stateOffset + n];
        if n == left {
          stateOffset := 0;
          return 0;
        }
        stateOffset := stateOffset + n;
        left := left - n;
      }
      r := len - stateOffset;
    }

    /** A small read fills the prefetch buffer, whose second half absorbs what comes too early. */
    method ReadPrefetch(len: nat, p: array<byte>, ghost stream: seq<byte>) returns (r: int)
      requires Shape() && recvStart == recvEnd == 0 && len <= p.Length && p != recvBuf
      requires len <= recvMaxPrefetch && (stateOffset < len || len == stateOffset == 0)
      requires p[..stateOffset] + source.incoming == stream
      modifies this`recvStart, this`recvEnd, this`stateOffset, recvBuf, source, p
      ensures Shape()
      ensures r == 0 ==> stateOffset == 0 && p[..len] + Buffered() + source.incoming == stream
      ensures r > 0 ==>
                && stateOffset < len && r == len - stateOffset && Buffered() == []
                && p[..stateOffset] + source.incoming == stream
      ensures r < 0 ==> stateOffset <= len && p[..stateOffset] + Buffered() + source.incoming == stream
      ensures |source.plan| <= |old(source.plan)|
      ensures r != 0 ==> source.plan == [] || |source.plan| < |old(source.plan)|
      ensures old(source.plan) == [] ==> r >= 0
    {
      ghost var had := p[..stateOffset];
      var n := Refill(len - stateOffset);
      assert p[..stateOffset] == had;
      assert had + recvBuf[..recvEnd] + source.incoming == stream;
      if n < 0 {
        return -1;
      }
      if recvEnd >= len - stateOffset {
        HandOver(len - stateOffset, p);
        stateOffset := 0;
        return 0;
      }
      HandOver(recvEnd, p);
      assert Buffered() == [];
      stateOffset := stateOffset + recvEnd;
      recvStart, recvEnd := 0, 0;
      r := len - stateOffset;
    }

    /** Moves the first n prefetched bytes behind what p holds. */
    method HandOver(n: nat, p: array<byte>)
      requires Shape() && recvStart == 0 && n <= recvEnd && stateOffset + n <= p.Length && p != recvBuf
      modifies this`recvStart, p
      ensures recvStart == n
      ensures p[..stateOffset + n] + Buffered() == old(p[..stateOffset]) + recvBuf[..recvEnd]
    {
      recvStart := n;
      Copy(recvBuf, 0, p, stateOffset, n);
      assert p[..stateOffset + n] == p[..stateOffset] + p[stateOffset..stateOffset + n];
      assert recvBuf[..recvEnd] == recvBuf[0..n] + Buffered();
    }

    /** The read loop of a small read: it stops with enough in the prefetch buffer, on EAGAIN or on an error. */
    method Refill(need: nat) returns (n: int)
      requires Shape() && recvStart == recvEnd == 0 && need <= recvMaxPrefetch
      modifies this`recvEnd, recvBuf, source
      ensures Shape()
      ensures recvBuf[..recvEnd] + source.incoming == old(source.incoming)
      ensures |source.plan| <= |old(source.plan)|
      ensures n < 0 || recvEnd < need ==> source.plan == [] || |source.plan| < |old(source.plan)|
      ensures n < 0 ==> recvEnd <= need
      ensures old(source.plan) == [] ==> n >= 0
    {
      hide Valid, Buffered;
      var left := need;
      n := 1;
      assert recvBuf[..recvEnd] == [];
      while n > 0
        invariant recvEnd <= recvMaxPrefetch && recvEnd + left == need && n >= 0
        invariant left > 0 || recvEnd == 0
        invariant recvBuf[..recvEnd] + source.incoming == old(source.incoming)
        invariant |source.plan| <= |old(source.plan)|
        invariant n == 0 ==> source.plan == [] || |source.plan| < |old(source.plan)|
        decreases n > 0, |source.incoming|, |source.plan|
      {
        ghost var had, was := recvBuf[..recvEnd], source.incoming;
        n := source.ReadBulk(recvBuf, recvEnd, recvMaxPrefetch);
        if n < 0 {
          assert recvBuf[..recvEnd] == recvBuf[..][..recvEnd];
          return;
        }
        Grown(recvBuf, recvEnd, n, had, was, source.incoming);
        recvEnd := recvEnd + n;
        if n >= left {
          return;
        }
        left := left - n;
      }
    }

    /** One read, retried with the same length and buffer as long as the socket has something to say. */
    method Retry(len: nat, p: array<byte>) returns (r: int)
      requires Valid() && stateOffset == 0 && p.Length == len && p != recvBuf
      modifies this`recvStart, this`recvEnd, this`stateOffset, recvBuf, source, p
      ensures Shape() && stateOffset <= len
      ensures r == 0 ==> Valid() && stateOffset == 0
      ensures r > 0 ==> Valid() && stateOffset < len && source.plan == []
      ensures (if r == 0 then p[..] else p[..stateOffset]) + Buffered() + source.incoming
           == old(Buffered()) + old(source.incoming)
    {
      hide Valid, Buffered;
      ghost var stream := Buffered() + source.incoming;
      assert p[..stateOffset] + Buffered() == Buffered();
      r := ReadUntil(len, p);
      assert p[..len] == p[..];
      while r > 0 && source.plan != []
        invariant Shape() && (r >= 0 ==> Valid()) && stateOffset <= len
        invariant r == 0 ==> stateOffset == 0
        invariant r > 0 ==> stateOffset < len && Buffered() == []
        invariant (if r == 0 then p[..] else p[..stateOffset]) + Buffered() + source.incoming == stream
        decreases r > 0, |source.plan|
      {
        r := ReadUntil(len, p);
        assert p[..len] == p[..];
      }
    }

    /**
     A sequence of reads, each retried until it completes, as the event loop does: whatever the
     fragmentation, the results cut the stream into pieces of exactly the requested lengths, and what
     is not returned is still held, in order: part of the unfinished read, the prefetch buffer, the socket.
     */
    method ReadAll(lens: seq<nat>) returns (outs: seq<seq<byte>>, partial: seq<byte>, failed: bool)
      requires Valid() && stateOffset == 0
      modifies this`recvStart, this`recvEnd, this`stateOffset, recvBuf, source
      ensures Shape() && |outs| <= |lens|
      ensures forall i | 0 <= i < |outs| :: |outs[i]| == lens[i]
      ensures Flatten(outs) + partial + Buffered() + source.incoming == old(Buffered()) + old(source.incoming)
      ensures |outs| == |lens| ==> partial == [] && !failed
      ensures |outs| < |lens| ==> failed || (source.plan == [] && |partial| < lens[|outs|])
    {
      hide Valid, Buffered, Flatten;
      outs, partial, failed := [], [], false;
      ghost var stream := Buffered() + source.incoming;
      assert Flatten(outs) == [];
      while |outs| < |lens|
        invariant Valid() && stateOffset == 0 && |outs| <= |lens| && !failed && partial == []
        invariant forall i | 0 <= i < |outs| :: |outs[i]| == lens[i]
        invariant Flatten(outs) + (Buffered() + source.incoming) == stream
        decreases |lens| - |outs|
      {
        var len := lens[|outs|];
        var p := new byte[len];
        var r := Retry(len, p);
        var got := if r == 0 then p[..] else p[..stateOffset];
        assert Flatten(outs) + (got + Buffered() + source.incoming) == stream;
        Regroup(Flatten(outs), got, Buffered(), source.incoming);
        if r != 0 {
          return outs, got, r < 0;
        }
        FlattenSnoc(outs, got);
        outs := outs + [got];
      }
    }
  }

  lemma Grown(buf: array<byte>, end: nat, n: nat, had: seq<byte>, was: seq<byte>, now: seq<byte>)
    requires end + n <= buf.Length
    requires buf[..end] == had && was == buf[end..end + n] + now
    ensures buf[..end + n] + now == had + was
  {
    assert buf[..end + n] == buf[..end] + buf[end..end + n];
  }

  lemma Regroup(a: seq<byte>, b: seq<byte>, c: seq<byte>, d: seq<byte>)
    ensures a + (b + c + d) == a + b + c + d
    ensures a + (b + c + d) == (a + b) + (c + d)
  {
    assert a + (b + c + d) == a + b + c + d;
    assert a + (b + c + d) == (a + b) + (c + d);
  }
}
