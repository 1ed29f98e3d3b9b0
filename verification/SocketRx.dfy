/**
 The receiving half of the RDMA socket: `pass_wc`, `get_wc`, `read` and `read_buffers`
 (hardware_async/rdma/RDMAReliableConnectedSocketImpl.cc 90-117, 301-405).
 */
module SocketRx {
  import opened Bytes
  import opened Chunks

  const EAGAIN := 11
  const ECONNRESET := 104

  /** A receive completion: the hardware filled the first byteLen bytes of the chunk; none of them means FIN. */
  datatype Completion = Completion(chunk: Chunk, byteLen: nat)

  /** A chunk with unread bytes. */
  ghost predicate Holding(c: Chunk)
    reads c
  {
    c.Valid() && c.offset < c.bound <= c.bytes
  }

  /** Every chunk has unread bytes. */
  ghost predicate Stored(cs: seq<Chunk>)
    reads cs
  {
    forall i | 0 <= i < |cs| :: Holding(cs[i])
  }

  /** The unread bytes of a list of chunks, in order. */
  ghost function Rest(cs: seq<Chunk>): seq<byte>
    requires Stored(cs)
    reads cs, Memory(cs)
  {
    if cs == [] then [] else cs[0].Unread() + Rest(cs[1..])
  }

  predicate Distinct(cs: seq<Chunk>) {
    forall i, j | 0 <= i < j < |cs| :: cs[i] != cs[j]
  }

  /** The caller's buffer is not the memory of a chunk. */
  ghost predicate Outside(dst: array<byte>, cs: seq<Chunk>) {
    forall i | 0 <= i < |cs| :: cs[i].buffer != dst
  }

  lemma HeadOf(cs: seq<Chunk>, i: nat)
    requires i < |cs| && Holding(cs[i]) && Stored(cs[i + 1..])
    ensures Stored(cs[i..]) && Rest(cs[i..]) == cs[i].Unread() + Rest(cs[i + 1..])
  {
    assert cs[i..][0] == cs[i] && cs[i..][1..] == cs[i + 1..];
    assert forall j | 0 < j < |cs[i..]| :: cs[i..][j] == cs[i + 1..][j - 1];
  }

  lemma SplitHead(cs: seq<Chunk>, i: nat)
    requires i < |cs| && Stored(cs[i..])
    ensures Holding(cs[i]) && Stored(cs[i + 1..])
  {
    assert cs[i..][0] == cs[i];
    assert cs[i + 1..] == cs[i..][1..];
  }

  lemma NoneLeft(cs: seq<Chunk>)
    ensures cs[|cs|..] == [] && Stored(cs[|cs|..]) && Rest(cs[|cs|..]) == [] && cs[0..] == cs
  {
  }

  lemma Separate(dst: array<byte>, c: Chunk, others: seq<Chunk>)
    requires Outside(dst, others) && c !in others
    ensures (dst as object) !in Memory(others) && (c as object) !in Memory(others)
    ensures forall i | 0 <= i < |others| :: (others[i] as object) != c && (others[i] as object) != dst
  {
  }

  /** One `Chunk::read`, seen from the chunks behind it. */
  method TakeFrom(c: Chunk, dst: array<byte>, at: nat, len: nat, ghost others: seq<Chunk>) returns (n: nat)
    requires Holding(c) && Stored(others) && c !in others
    requires c.buffer != dst && Outside(dst, others) && at + len <= dst.Length
    modifies c, dst
    ensures Stored(others) && Rest(others) == old(Rest(others))
    ensures c.Valid() && c.offset <= c.bound <= c.bytes
    ensures n <= |old(c.Unread())| && n <= len && (n == len || c.Over()) && (n < |old(c.Unread())| <==> !c.Over())
    ensures dst[..at + n] == old(dst[..at]) + old(c.Unread())[..n] && dst[at + n..] == old(dst[at + n..])
    ensures c.Unread() == old(c.Unread())[n..]
  {
    Separate(dst, c, others);
    label Before:
    n := c.Read(dst, at, len);
    assert dst[..at + n] == dst[..at] + dst[at..at + n];
    assert unchanged@Before(others, Memory(others));
  }

  lemma Alone(cs: seq<Chunk>, i: nat, dst: array<byte>)
    requires i < |cs| && Distinct(cs) && Outside(dst, cs)
    ensures cs[i] !in cs[i + 1..] && Outside(dst, cs[i + 1..]) && cs[i].buffer != dst
    ensures forall j | 0 <= j < i :: cs[j] != cs[i]
  {
  }

  /** One turn of the loop in `read_buffers`: either chunk i is used up or the request is. */
  method StepRead(cs: seq<Chunk>, i: nat, dst: array<byte>, read: nat, len: nat, ghost stream: seq<byte>)
    returns (tmp: nat)
    requires i < |cs| && Distinct(cs) && Outside(dst, cs) && read <= len <= dst.Length
    requires Stored(cs[i..]) && dst[..read] + Rest(cs[i..]) == stream
    requires forall j | 0 <= j < i :: cs[j].Over()
    modifies cs[i], dst
    ensures read + tmp <= len && (forall j | 0 <= j < i :: cs[j].Over())
    ensures cs[i].Over() ==> Stored(cs[i + 1..]) && dst[..read + tmp] + Rest(cs[i + 1..]) == stream
    ensures !cs[i].Over() ==> read + tmp == len && Stored(cs[i..]) && dst[..len] + Rest(cs[i..]) == stream
  {
    hide Stored, Rest, Distinct, Outside;
    Alone(cs, i, dst);
    SplitHead(cs, i);
    HeadOf(cs, i);
    ghost var had, head, tail := dst[..read], cs[i].Unread(), Rest(cs[i + 1..]);
    tmp := TakeFrom(cs[i], dst, read, len - read, cs[i + 1..]);
    Recut(had, head, tail, tmp);
    if !cs[i].Over() {
      HeadOf(cs, i);
    }
  }

  lemma Recut(had: seq<byte>, head: seq<byte>, tail: seq<byte>, n: nat)
    requires n <= |head|
    ensures had + (head + tail) == had + head[..n] + (head[n..] + tail)
    ensures n == |head| ==> had + (head + tail) == had + head[..n] + tail
  {
    assert head == head[..n] + head[n..];
  }

  /** The loop of `read_buffers`: k chunks are used up, in order, and handed back as `back`. */
  method DrainChunks(cs: seq<Chunk>, dst: array<byte>, len: nat) returns (read: nat, k: nat, back: seq<Chunk>)
    requires Stored(cs) && Distinct(cs) && Outside(dst, cs) && len <= dst.Length
    modifies cs, dst
    ensures k <= |cs| && back == cs[..k] && (forall j | 0 <= j < k :: cs[j].Over()) && Stored(cs[k..])
    ensures read <= len && (k == |cs| || read == len)
    ensures dst[..read] + Rest(cs[k..]) == old(Rest(cs))
  {
    hide Stored, Rest, Holding, Outside;
    var i := 0;
    read, back := 0, [];
    NoneLeft(cs);
    while i < |cs|
      invariant i <= |cs| && read <= len && (i == 0 || i == |cs| || read < len)
      invariant back == cs[..i] && forall j | 0 <= j < i :: cs[j].Over()
      invariant Stored(cs[i..]) && dst[..read] + Rest(cs[i..]) == old(Rest(cs))
    {
      var tmp := StepRead(cs, i, dst, read, len, old(Rest(cs)));
      read := read + tmp;
      if cs[i].Over() {
        back := back + [cs[i]];
      }
      if read == len {
        break;
      }
      i := i + 1;
    }
    if i < |cs| && cs[i].Over() {
      i := i + 1;
    }
    k := i;
  }

  function ChunksOf(ws: seq<Completion>): (cs: seq<Chunk>)
    ensures |cs| == |ws| && forall i | 0 <= i < |ws| :: cs[i] == ws[i].chunk
  {
    seq(|ws|, i requires 0 <= i < |ws| => ws[i].chunk)
  }

  /** The completion is not longer than its chunk. */
  ghost predicate FitsOne(w: Completion) {
    w.byteLen <= w.chunk.bytes == w.chunk.buffer.Length
  }

  ghost predicate Fits(ws: seq<Completion>) {
    forall i | 0 <= i < |ws| :: FitsOne(ws[i])
  }

  /** The bytes that arrived with a list of completions, in order. */
  ghost function Incoming(ws: seq<Completion>): seq<byte>
    requires Fits(ws)
    reads ChunksOf(ws), Memory(ChunksOf(ws))
  {
    if ws == [] then [] else
      assert ws[0].chunk in ChunksOf(ws);
      assert ChunksOf(ws[1..]) == ChunksOf(ws)[1..];
      ws[0].chunk.buffer[..ws[0].byteLen] + Incoming(ws[1..])
  }

  lemma {:induction false} RestSnoc(cs: seq<Chunk>, c: Chunk)
    requires Stored(cs) && Holding(c)
    ensures Stored(cs + [c]) && Rest(cs + [c]) == Rest(cs) + c.Unread()
  {
    if cs == [] {
      assert [c][1..] == [];
    } else {
      RestSnoc(cs[1..], c);
      assert (cs + [c])[0] == cs[0] && (cs + [c])[1..] == cs[1..] + [c];
    }
  }

  /** `prepare_read`, seen from the other chunks. */
  method Prepare(w: Completion, dst: array<byte>, ghost bufs: seq<Chunk>, ghost rest: seq<Completion>)
    requires Stored(bufs) && FitsOne(w) && Fits(rest) && w.chunk !in bufs && w.chunk !in ChunksOf(rest)
    requires Outside(dst, bufs) && Outside(dst, ChunksOf(rest))
    modifies w.chunk
    ensures w.chunk.offset == 0 && w.chunk.bound == w.byteLen
    ensures Stored(bufs) && Rest(bufs) == old(Rest(bufs)) && Incoming(rest) == old(Incoming(rest))
  {
    hide Stored, Outside, Incoming, Rest;
    Separate(dst, w.chunk, bufs);
    Separate(dst, w.chunk, ChunksOf(rest));
    label Start:
    w.chunk.PrepareRead(w.byteLen);
    assert unchanged@Start(bufs, Memory(bufs));
    assert unchanged@Start(ChunksOf(rest), Memory(ChunksOf(rest)));
  }

  /**
   One completion of `read`: FIN and used-up chunks go back (`gone`), a chunk that outlives the
   request joins the stored ones.
   */
  method Absorb(bufs: seq<Chunk>, w: Completion, dst: array<byte>, read: nat, len: nat, ghost rest: seq<Completion>,
      ghost stream: seq<byte>)
    returns (bufs': seq<Chunk>, gone: bool, read': nat)
    requires Stored(bufs) && FitsOne(w) && Fits(rest) && read <= len <= dst.Length && (bufs == [] || read == len)
    requires Outside(dst, bufs) && w.chunk.buffer != dst && Outside(dst, ChunksOf(rest))
    requires w.chunk !in bufs && w.chunk !in ChunksOf(rest)
    requires dst[..read] + Rest(bufs) + (w.chunk.buffer[..w.byteLen] + Incoming(rest)) == stream
    modifies w.chunk, dst
    ensures bufs' == if gone then bufs else bufs + [w.chunk]
    ensures gone ==> w.chunk.Over()
    ensures w.byteLen == 0 ==> gone
    ensures Stored(bufs') && read <= read' <= len && (bufs' == [] || read' == len)
    ensures dst[..read'] + Rest(bufs') + Incoming(rest) == stream
  {
    hide Stored, Outside, Incoming, Rest, Memory, ChunksOf;
    ghost var a, b, c, d := dst[..read], Rest(bufs), w.chunk.buffer[..w.byteLen], Incoming(rest);
    bufs', gone, read' := bufs, false, read;
    Prepare(w, dst, bufs, rest);
    Regroup(a, b, c, d);
    if w.byteLen == 0 {
      gone := true;
    } else if read == len {
      assert w.chunk.Unread() == c;
      RestSnoc(bufs, w.chunk);
      bufs' := bufs + [w.chunk];
    } else {
      NoneStored(bufs);
      bufs', gone, read' := ReadFresh(w, dst, read, len, rest);
      Reread(a, c, d, read' - read);
    }
  }

  /** A fresh chunk while the request still wants bytes: nothing is stored yet. */
  method ReadFresh(w: Completion, dst: array<byte>, read: nat, len: nat, ghost rest: seq<Completion>)
    returns (bufs': seq<Chunk>, gone: bool, read': nat)
    requires w.byteLen > 0 && FitsOne(w) && w.chunk.offset == 0 && w.chunk.bound == w.byteLen
    requires read < len <= dst.Length && w.chunk.buffer != dst
    requires Fits(rest) && Outside(dst, ChunksOf(rest)) && w.chunk !in ChunksOf(rest)
    modifies w.chunk, dst
    ensures bufs' == if gone then [] else [w.chunk]
    ensures gone ==> w.chunk.Over()
    ensures Stored(bufs') && read <= read' <= len && (gone || read' == len) && Incoming(rest) == old(Incoming(rest))
    ensures read' - read <= w.byteLen && (gone ==> read' - read == w.byteLen)
    ensures dst[..read'] == old(dst[..read]) + old(w.chunk.buffer[..w.byteLen])[..read' - read]
    ensures Rest(bufs') == if gone then [] else old(w.chunk.buffer[..w.byteLen])[read' - read..]
  {
    hide Outside, Incoming;
    Separate(dst, w.chunk, ChunksOf(rest));
    label Start:
    var n;
    if read + w.byteLen > len {
      n := TakeFrom(w.chunk, dst, read, len - read, []);
      RestSnoc([], w.chunk);
      assert [] + [w.chunk] == [w.chunk] && [] + w.chunk.Unread() == w.chunk.Unread();
      bufs', gone := [w.chunk], false;
    } else {
      n := TakeFrom(w.chunk, dst, read, w.byteLen, []);
      bufs', gone := [], true;
    }
    read' := read + n;
    assert unchanged@Start(ChunksOf(rest), Memory(ChunksOf(rest)));
  }

  lemma NoneStored(cs: seq<Chunk>)
    requires cs == []
    ensures Stored(cs) && Rest(cs) == []
  {
  }

  lemma Regroup(a: seq<byte>, b: seq<byte>, c: seq<byte>, d: seq<byte>)
    ensures a + b + (c + d) == a + (b + c) + d
    ensures c == [] ==> a + b + (c + d) == a + b + d
  {
    assert a + b + (c + d) == a + (b + c) + d;
    assert c == [] ==> c + d == d;
  }

  lemma Reread(a: seq<byte>, c: seq<byte>, d: seq<byte>, n: nat)
    requires n <= |c|
    ensures a + [] + (c + d) == a + c[..n] + c[n..] + d
    ensures n == |c| ==> a + [] + (c + d) == a + c[..n] + [] + d
  {
    assert c == c[..n] + c[n..];
  }

  lemma IncomingAt(ws: seq<Completion>, i: nat)
    requires i < |ws| && Fits(ws)
    ensures FitsOne(ws[i]) && Fits(ws[i..]) && Fits(ws[i + 1..])
    ensures Incoming(ws[i..]) == ws[i].chunk.buffer[..ws[i].byteLen] + Incoming(ws[i + 1..])
    ensures ChunksOf(ws[i + 1..]) == ChunksOf(ws)[i + 1..]
  {
    assert ws[i..][0] == ws[i] && ws[i..][1..] == ws[i + 1..];
  }

  lemma NoneIncoming(ws: seq<Completion>)
    ensures ws[|ws|..] == [] && Fits(ws[|ws|..]) && Incoming(ws[|ws|..]) == [] && ws[0..] == ws
  {
  }

  /** The chunk of completion i is new to everything that was seen before it and comes after it. */
  lemma FreshAt(bufs0: seq<Chunk>, cs: seq<Chunk>, i: nat, bufs: seq<Chunk>, dst: array<byte>)
    requires i < |cs| && Distinct(bufs0 + cs) && Outside(dst, bufs0 + cs)
    requires forall c | c in bufs :: c in bufs0 || c in cs[..i]
    ensures cs[i] !in bufs && cs[i] !in cs[..i] && cs[i] !in cs[i + 1..]
    ensures Outside(dst, bufs) && Outside(dst, cs[i + 1..]) && cs[i].buffer != dst
  {
    var all := bufs0 + cs;
    assert forall k | 0 <= k < |cs| :: cs[k] == all[|bufs0| + k];
    assert forall k | 0 <= k < |bufs0| :: bufs0[k] == all[k];
    assert forall c | c in all :: c.buffer != dst;
    forall k | 0 <= k < |bufs|
      ensures bufs[k].buffer != dst
    {
      assert bufs[k] in bufs0 || bufs[k] in cs[..i];
      assert bufs[k] in all;
    }
  }

  /** One more chunk, stored or handed back. */
  lemma OneMore(bufs0: seq<Chunk>, cs: seq<Chunk>, i: nat, bufs: seq<Chunk>, back: seq<Chunk>)
    requires i < |cs| && multiset(bufs) + multiset(back) == multiset(bufs0) + multiset(cs[..i])
    ensures cs[..i + 1] == cs[..i] + [cs[i]]
    ensures multiset(bufs + [cs[i]]) + multiset(back) == multiset(bufs0) + multiset(cs[..i + 1])
    ensures multiset(bufs) + multiset(back + [cs[i]]) == multiset(bufs0) + multiset(cs[..i + 1])
  {
    assert cs[..i + 1] == cs[..i] + [cs[i]];
    var one := multiset{cs[i]};
    assert multiset(cs[..i + 1]) == multiset(cs[..i]) + one;
    assert multiset(bufs + [cs[i]]) == multiset(bufs) + one;
    assert multiset(back + [cs[i]]) == multiset(back) + one;
    var a, b := multiset(bufs), multiset(back);
    assert (a + one) + b == (a + b) + one && a + (b + one) == (a + b) + one;
  }

  /**
   All the completions of one `read`, in order. Every chunk that came in is afterwards either stored
   or handed back (`back`), once; what is handed back has been read to its end.
   */
  method AbsorbAll(ws: seq<Completion>, bufs0: seq<Chunk>, dst: array<byte>, read0: nat, len: nat)
    returns (bufs: seq<Chunk>, back: seq<Chunk>, read: nat, fin: bool)
    requires Stored(bufs0) && Fits(ws) && read0 <= len <= dst.Length && (bufs0 == [] || read0 == len)
    requires Distinct(bufs0 + ChunksOf(ws)) && Outside(dst, bufs0 + ChunksOf(ws))
    modifies ChunksOf(ws), dst
    ensures Stored(bufs) && read0 <= read <= len && (bufs == [] || read == len)
    ensures dst[..read] + Rest(bufs) == old(dst[..read0] + Rest(bufs0) + Incoming(ws))
    ensures multiset(bufs) + multiset(back) == multiset(bufs0) + multiset(ChunksOf(ws))
    ensures forall c | c in back :: c in ChunksOf(ws) && c.Over()
    ensures fin <==> exists i :: 0 <= i < |ws| && ws[i].byteLen == 0
  {
    hide Stored, Rest, Outside, Incoming, Distinct, Fits, FitsOne;
    ghost var cs := ChunksOf(ws);
    ghost var stream := dst[..read0] + Rest(bufs0) + Incoming(ws);
    bufs, back, read, fin := bufs0, [], read0, false;
    var i := 0;
    NoneIncoming(ws);
    while i < |ws|
      invariant i <= |ws| && read0 <= read <= len && (bufs == [] || read == len)
      invariant Stored(bufs) && Fits(ws[i..]) && dst[..read] + Rest(bufs) + Incoming(ws[i..]) == stream
      invariant multiset(bufs) + multiset(back) == multiset(bufs0) + multiset(cs[..i])
      invariant forall c | c in bufs :: c in bufs0 || c in cs[..i]
      invariant forall c | c in back :: c in cs[..i] && c.Over()
      invariant fin <==> exists k :: 0 <= k < i && ws[k].byteLen == 0
    {
      IncomingAt(ws, i);
      FreshAt(bufs0, cs, i, bufs, dst);
      OneMore(bufs0, cs, i, bufs, back);
      if ws[i].byteLen == 0 {
        fin := true;
      }
      var gone;
      bufs, gone, read := Absorb(bufs, ws[i], dst, read, len, ws[i + 1..], stream);
      if gone {
        back := back + [ws[i].chunk];
      }
      i := i + 1;
    }
    NoneIncoming(ws);
    assert cs[..i] == cs;
    assert dst[..read] + Rest(bufs) + [] == dst[..read] + Rest(bufs);
  }

  class RxSocket {
    var buffers: seq<Chunk>
    var wc: seq<Completion>
    /** Receive chunks given back to the pool, in order. */
    var returned: seq<Chunk>
    var active: bool
    var connected: bool
    var error: nat
    /** The event descriptor is readable. */
    var notified: bool

    constructor ()
      ensures buffers == [] && wc == [] && returned == [] && !active && !connected && error == 0 && !notified
    {
      buffers, wc, returned, error := [], [], [], 0;
      active, connected, notified := false, false, false;
    }

    method PassWc(addWc: seq<Completion>)
      modifies this`wc, this`notified
      ensures wc == old(wc) + addWc && notified
    {
      if wc == [] {
        wc := addWc;
      } else {
        wc := wc + addWc;
      }
      notified := true;
    }

    /**
     Takes bytes from the stored chunks, front first; a chunk goes back to the pool when, and only when,
     it is used up.
     */
    method ReadBuffers(dst: array<byte>, len: nat) returns (read: nat, ghost k: nat)
      requires Stored(buffers) && Fits(wc) && Disjoint(dst, buffers, ChunksOf(wc)) && len <= dst.Length
      modifies this`buffers, this`returned, buffers, dst
      ensures k <= |old(buffers)| && buffers == old(buffers)[k..] && returned == old(returned) + old(buffers)[..k]
      ensures (forall j | 0 <= j < k :: old(buffers)[j].Over()) && Stored(buffers)
      ensures read <= len && (buffers == [] || read == len)
      ensures dst[..read] + Rest(buffers) == old(Rest(buffers)) && Incoming(wc) == old(Incoming(wc))
    {
      hide Stored, Rest, Outside, Incoming, Fits, Distinct;
      Parts(dst, buffers, ChunksOf(wc));
      var back, n;
      label Start:
      read, n, back := DrainChunks(buffers, dst, len);
      assert unchanged@Start(ChunksOf(wc), Memory(ChunksOf(wc)));
      NotAChunk(this, buffers[n..]);
      NotAChunk(this, ChunksOf(wc));
      returned := returned + back;
      buffers := buffers[n..];
      k := n;
    }

    /** The work of `read` on an open socket; the result code is `Read`'s. */
    method Receive(dst: array<byte>, len: nat) returns (read: nat, fin: bool)
      requires Stored(buffers) && Fits(wc) && Disjoint(dst, buffers, ChunksOf(wc)) && len <= dst.Length
      modifies this`buffers, this`returned, this`wc, buffers, ChunksOf(wc), dst
      ensures wc == [] && Stored(buffers) && read <= len && (buffers == [] || read == len)
      ensures dst[..read] + Rest(buffers) == old(Rest(buffers) + Incoming(wc))
      ensures fin <==> exists i :: 0 <= i < |old(wc)| && old(wc)[i].byteLen == 0
      ensures |old(returned)| <= |returned| && returned[..|old(returned)|] == old(returned)
      ensures multiset(returned) + multiset(buffers) == old(multiset(returned) + (multiset(buffers)
              + multiset(ChunksOf(wc))))
      ensures forall i | |old(returned)| <= i < |returned| :: returned[i].Over()
    {
      hide Stored, Rest, Outside, Incoming, Fits, Distinct, Memory;
      ghost var k;
      Parts(dst, buffers, ChunksOf(wc));
      read, k := ReadBuffers(dst, len);
      PartsFrom(dst, old(buffers), k, ChunksOf(wc));
      ghost var back;
      read, fin, back := ReceiveNew(dst, len, read);
      Ledger(old(returned), old(buffers), k, ChunksOf(old(wc)), buffers, back);
    }

    /** The completions, behind what was stored. */
    method ReceiveNew(dst: array<byte>, len: nat, read0: nat) returns (read: nat, fin: bool, ghost given: seq<Chunk>)
      requires Stored(buffers) && Fits(wc) && read0 <= len <= dst.Length && (buffers == [] || read0 == len)
      requires Distinct(buffers + ChunksOf(wc)) && Outside(dst, buffers + ChunksOf(wc))
      modifies this`buffers, this`returned, this`wc, ChunksOf(wc), dst
      ensures wc == [] && Stored(buffers) && read <= len && (buffers == [] || read == len)
      ensures dst[..read] + Rest(buffers) == old(dst[..read0] + Rest(buffers) + Incoming(wc))
      ensures fin <==> exists i :: 0 <= i < |old(wc)| && old(wc)[i].byteLen == 0
      ensures returned == old(returned) + given && forall c | c in given :: c.Over()
      ensures multiset(buffers) + multiset(given) == old(multiset(buffers) + multiset(ChunksOf(wc)))
    {
      hide Stored, Rest, Outside, Incoming, Fits, Distinct, Memory;
      NotAChunk(this, ChunksOf(wc));
      NotAChunk(this, buffers);
      var cqe := wc;
      wc := [];
      var bufs, back;
      bufs, back, read, fin := AbsorbAll(cqe, buffers, dst, read0, len);
      NotAChunk(this, bufs);
      buffers := bufs;
      returned := returned + back;
      given := back;
    }

    /**
     `read`: the next min(len, available) bytes of the stream made of the stored chunks and the new
     completions, in order; the rest stays stored, in chunks that are not empty. Every chunk is
     afterwards stored or handed back, once, and only after its last byte was read. EAGAIN or an error
     comes with bytes still unread exactly when no bytes were asked for. (With no completions the loop
     over them does nothing: that is the early return of the source.)
     */
    method Read(dst: array<byte>, len: nat) returns (r: int, ghost n: nat)
      requires Stored(buffers) && Fits(wc) && Disjoint(dst, buffers, ChunksOf(wc)) && len <= dst.Length
      modifies this`buffers, this`returned, this`wc, this`error, this`notified, buffers, ChunksOf(wc), dst
      ensures Stored(buffers)
      ensures !active || !connected ==>
                && r == 0 - EAGAIN && n == 0 && buffers == old(buffers) && wc == old(wc) && returned == old(returned)
                && error == old(error) && Fits(wc) && Rest(buffers) == old(Rest(buffers))
                && Incoming(wc) == old(Incoming(wc)) && dst[..] == old(dst[..])
      ensures active && connected ==>
                && wc == [] && n <= len && (buffers == [] || n == len)
                && dst[..n] + Rest(buffers) == old(Rest(buffers) + Incoming(wc))
                && error == (if exists i :: 0 <= i < |old(wc)| && old(wc)[i].byteLen == 0 then ECONNRESET
                             else old(error))
                && r == (if n > 0 then n else if error != 0 then 0 - error else 0 - EAGAIN)
                && (r < 0 && Rest(buffers) != [] <==> len == 0 && old(Rest(buffers) + Incoming(wc)) != [])
                && (notified <==> buffers != [])
      ensures active && connected ==>
                && |old(returned)| <= |returned| && returned[..|old(returned)|] == old(returned)
                && multiset(returned) + multiset(buffers) == old(multiset(returned) + (multiset(buffers)
                    + multiset(ChunksOf(wc))))
                && forall i | |old(returned)| <= i < |returned| :: returned[i].Over()
    {
      hide Stored, Outside, Incoming, Fits, Distinct, Memory, Rest, Disjoint;
      NotAChunk(this, buffers);
      NotAChunk(this, ChunksOf(wc));
      notified := false;
      n := 0;
      if !active || !connected {
        return 0 - EAGAIN, 0;
      }
      var read, fin;
      read, fin := Receive(dst, len);
      n := read;
      NotAChunk(this, buffers);
      EarlyError(dst[..n], buffers, len);
      if fin {
        error := ECONNRESET;
      }
      if buffers != [] {
        notified := true;
      }
      r := if read > 0 then read else if error != 0 then 0 - error else 0 - EAGAIN;
    }
  }

  lemma EarlyError(got: seq<byte>, bufs: seq<Chunk>, len: nat)
    requires Stored(bufs) && |got| <= len && (bufs == [] || |got| == len)
    ensures got == [] && Rest(bufs) != [] <==> len == 0 && got + Rest(bufs) != []
  {
  }

  lemma Ledger(ret0: seq<Chunk>, buf0: seq<Chunk>, k: nat, cs: seq<Chunk>, bufs: seq<Chunk>, back: seq<Chunk>)
    requires k <= |buf0| && multiset(bufs) + multiset(back) == multiset(buf0[k..]) + multiset(cs)
    ensures multiset(ret0 + buf0[..k] + back) + multiset(bufs) == multiset(ret0) + (multiset(buf0) + multiset(cs))
  {
    assert buf0 == buf0[..k] + buf0[k..];
    var r, h, t, c, b, g := multiset(ret0), multiset(buf0[..k]), multiset(buf0[k..]), multiset(cs), multiset(bufs),
        multiset(back);
    assert multiset(ret0 + buf0[..k] + back) == r + h + g;
    assert r + h + g + b == r + h + (b + g);
    assert r + h + (t + c) == r + ((h + t) + c);
  }

  /** Stored chunks, arriving chunks and the caller's buffer are all different. */
  ghost predicate Disjoint(dst: array<byte>, stored: seq<Chunk>, arriving: seq<Chunk>) {
    Distinct(stored + arriving) && Outside(dst, stored + arriving)
  }

  lemma Parts(dst: array<byte>, a: seq<Chunk>, b: seq<Chunk>)
    requires Disjoint(dst, a, b)
    ensures Distinct(a) && Outside(dst, a) && Outside(dst, b)
    ensures (forall i | 0 <= i < |a| :: (a[i] as object) !in Memory(b)) && (dst as object) !in Memory(b)
    ensures forall i, j | 0 <= i < |a| && 0 <= j < |b| :: (a[i] as object) != b[j]
    ensures forall j | 0 <= j < |b| :: (b[j] as object) != dst
  {
    var all := a + b;
    assert forall k | 0 <= k < |a| :: a[k] == all[k];
    assert forall k | 0 <= k < |b| :: b[k] == all[|a| + k];
  }

  lemma PartsFrom(dst: array<byte>, a: seq<Chunk>, k: nat, b: seq<Chunk>)
    requires k <= |a| && Disjoint(dst, a, b)
    ensures Distinct(a[k..] + b) && Outside(dst, a[k..] + b)
    ensures multiset(a) == multiset(a[..k]) + multiset(a[k..])
    ensures forall j | 0 <= j < k :: a[j] !in b
  {
    assert a[k..] + b == (a + b)[k..];
    assert a == a[..k] + a[k..];
    Parts(dst, a, b);
  }
}
