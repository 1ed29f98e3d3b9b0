/**
 One side of a lossless session, on values: the session fields of RDMAReliableConnected and what
 each operation does to them
 (hardware_async/rdma/backed_RDMAReliableConnected.cc, RDMAReliableConnected.h).
 */
module Endpoints {
  import opened Wrappers
  import opened SendQueue

  datatype Policy = Policy(server: bool, standby: bool, resetcheck: bool)

  /** The connection states, with those that do the same thing to a session merged. */
  datatype Phase =
    | Absent                                          // no connection object yet
    | Closed
    | Standby
    | Connecting                                      // STATE_CONNECTING up to the connect message
    | WaitReply                                       // connect message sent
    | WaitAckSeq(connectSeq: nat, globalSeq: nat)     // SEQ reply read
    | ConnectReady(connectSeq: nat, globalSeq: nat)   // own in_seq sent
    | RaceWait                                        // STATE_WAIT
    | Replacing                                       // STATE_NONE, socket being swapped
    | AcceptWaitConnect
    | AcceptWaitSeq
    | AcceptReady                                     // READY sent without an exchange of numbers
    | Open

  /**
   `hardReset` is is_reset_from_peer: the peer's connect message claimed a new session.
   `refs` counts the references the connection holds; `accepted`, `log`, `finished` and
   `dispatched` record the run: messages taken by send_message, messages in the order of their
   first write, messages released after an acknowledgement, and messages given to the receiver.
   */
  datatype Endpoint = Endpoint(
    phase: Phase, wire: Option<nat>, replacing: bool, onceReady: bool, hardReset: bool,
    outQ: OutQ, sent: seq<Msg>, outSeq: nat, inSeq: nat, ackLeft: nat,
    connectSeq: nat, globalSeq: nat, peerGlobalSeq: nat, counter: nat,
    refs: multiset<nat>,
    accepted: seq<nat>, log: seq<nat>, finished: seq<nat>, dispatched: seq<nat>)

  const NO_ENDPOINT := Endpoint(
    Absent, None, false, false, false, map[], [], 0, 0, 0, 0, 0, 0, 0, multiset{}, [], [], [], [])

  function IdList(l: seq<Msg>): seq<nat> {
    seq(|l|, i requires 0 <= i < |l| => l[i].id)
  }

  /** `send_message`: a closed connection drops the caller's reference, any other queues it. */
  function SendMessage(e: Endpoint, p: nat, id: nat): Endpoint {
    if e.phase.Closed? then e
    else e.(outQ := Enqueue(e.outQ, p, Msg(id, 0)), refs := e.refs + multiset{id}, accepted := e.accepted + [id])
  }

  /** One round of `handle_write`: take the next message, put it on `sent`, number and write it. */
  function WriteOne(e: Endpoint): Endpoint
  {
    var (m, q) := NextOutgoing(e.outQ);
    match m
    case None => e.(outQ := q)
    case Some(x) =>
      e.(outQ := q,
      sent := e.sent + [Msg(x.id, e.outSeq + 1)],
      outSeq := e.outSeq + 1,
      log := if x.seqNo == 0 then e.log + [x.id] else e.log)
  }

  ghost function HandleAck(e: Endpoint, acked: nat): Endpoint {
    var n := AckCount(e.sent, acked);
    e.(sent := e.sent[n..], refs := e.refs - Ids(e.sent[..n]), finished := e.finished + IdList(e.sent[..n]))
  }

  function RequeueSent(e: Endpoint): Endpoint
    requires |e.sent| <= e.outSeq
  {
    e.(outQ := Requeue(e.outQ, e.sent), sent := [], outSeq := e.outSeq - |e.sent|)
  }

  ghost function DiscardRequeuedUpTo(e: Endpoint, acked: nat): Endpoint {
    var l := ListAt(e.outQ, HIGHEST);
    var n := DiscardCount(l, acked);
    e.(outQ := Discard(e.outQ, acked), outSeq := e.outSeq + n,
    refs := e.refs - Ids(l[..n]), finished := e.finished + IdList(l[..n]))
  }

  /** `_stop`: every queued and sent message is released. */
  ghost function Stop(e: Endpoint): Endpoint {
    if e.phase.Closed? then e
    else e.(phase := Closed, wire := None, outQ := map[], sent := [],
    refs := e.refs - Ids(e.sent) - Queued(e.outQ))
  }

  /**
   `was_session_reset`: everything queued or sent is released, and all numbers start again. (With
   message signatures out_seq starts at a random number; that is not part of this model.)
   */
  ghost function WasReset(e: Endpoint): Endpoint {
    e.(outQ := map[], sent := [], refs := e.refs - Ids(e.sent) - Queued(e.outQ), log := [],
    outSeq := 0, inSeq := 0, connectSeq := 0, ackLeft := 0, onceReady := false)
  }

  /** The end of STATE_OPEN_MESSAGE_READ_FOOTER_AND_DISPATCH. */
  function Deliver(e: Endpoint, id: nat, seqNo: nat): Endpoint {
    if seqNo <= e.inSeq then e
    else e.(inSeq := seqNo, dispatched := e.dispatched + [id], ackLeft := e.ackLeft + 1)
  }

  predicate InConnectingStates(p: Phase) {
    p.Connecting? || p.WaitReply? || p.WaitAckSeq?
  }

  /**
   The state `fault` leaves. `queued` is `is_queued` after the sent list went back; `torn` says
   that a handshake message was only partly sent, so that the state is STATE_WAIT_SEND, which
   precedes the connecting states in the enumeration.
   */
  function FaultPhase(ph: Phase, onceReady: bool, replacing: bool, pol: Policy, queued: bool, torn: bool): Phase {
    if !onceReady && !queued && ph.AcceptWaitConnect? && !replacing then Closed
    else if pol.standby && !queued && !ph.RaceWait? then Standby
    else if (InConnectingStates(ph) && !torn) || ph.RaceWait? then Connecting
    else if pol.server then Standby
    else Connecting
  }

  /** `connect_seq++`: only when a reconnect starts from a state that was not connecting. */
  predicate FaultBumps(ph: Phase, onceReady: bool, replacing: bool, pol: Policy, queued: bool, torn: bool) {
    && FaultPhase(ph, onceReady, replacing, pol, queued, torn).Connecting?
    && !(InConnectingStates(ph) && !torn) && !ph.RaceWait?
  }

  /** `fault`. In the one case that stops the connection nothing is left for _stop to release. */
  function Fault(e: Endpoint, pol: Policy, torn: bool): Endpoint
    requires |e.sent| <= e.outSeq
  {
    if e.phase.Absent? || e.phase.Closed? || e.phase.Replacing? then e else
      var e1 := RequeueSent(e);
      var queued := e1.outQ != map[];
      e1.(wire := None, replacing := false, hardReset := false,
      phase := FaultPhase(e.phase, e.onceReady, e.replacing, pol, queued, torn),
      connectSeq := if FaultBumps(e.phase, e.onceReady, e.replacing, pol, queued, torn) then e.connectSeq + 1
                    else e.connectSeq)
  }

  /**
   Where a fault leads. `busy`: the old state was a connecting one, or STATE_WAIT, which comes from one.
   `held`: something is queued, or written and not acknowledged. An idle connection that was half
   accepted closes. Any other goes to standby if the policy asks for it and nothing is held, or if it is
   a server that was not busy; and else it reconnects, under a new connect_seq unless it was busy.
   */
  lemma FaultLeads(e: Endpoint, pol: Policy, torn: bool)
    requires |e.sent| <= e.outSeq && !e.phase.Absent? && !e.phase.Closed? && !e.phase.Replacing?
    ensures var f := Fault(e, pol, torn);
            var connecting := !torn && (e.phase.Connecting? || e.phase.WaitReply? || e.phase.WaitAckSeq?);
            var held := e.outQ != map[] || e.sent != [];
            && (f.phase.Closed? <==> !e.onceReady && !held && e.phase.AcceptWaitConnect? && !e.replacing)
            && (f.phase.Closed? || f.phase.Standby? || f.phase.Connecting?)
            && (!pol.server && f.phase.Standby? ==> pol.standby && e.outQ == map[] && e.sent == [])
            && (!pol.server && held ==> f.phase.Connecting?)
            && (pol.server && held ==>
                  f.phase == if connecting || e.phase.RaceWait? then Connecting else Standby)
            && (!held && !f.phase.Closed? ==>
                  (f.phase.Standby? <==>
                    !e.phase.RaceWait? && (pol.standby || (pol.server && !connecting))))
            && f.connectSeq == e.connectSeq
                               + (if f.phase.Connecting? && !connecting && !e.phase.RaceWait? then 1 else 0)
  {
    assert e.sent != [] ==> HIGHEST in Requeue(e.outQ, e.sent);
  }

  /** A fault of a connection that is absent, closed or being replaced does nothing. */
  lemma FaultIgnored(e: Endpoint, pol: Policy, torn: bool)
    requires |e.sent| <= e.outSeq && (e.phase.Absent? || e.phase.Closed? || e.phase.Replacing?)
    ensures Fault(e, pol, torn) == e
  {
  }

  /** The half of `handle_write` for a connection that may not write messages. */
  function NotWritable(e: Endpoint, pol: Policy, flushed: bool, torn: bool): Endpoint
    requires |e.sent| <= e.outSeq
  {
    if e.phase.Standby? && !pol.server && e.outQ != map[] then e.(phase := Connecting)
    else if e.wire.Some? && !e.phase.Replacing? && !e.phase.Connecting? && !e.phase.Closed? && !flushed
    then Fault(e, pol, torn)
    else e
  }

  /**
   A client in standby with something queued starts to connect. A failed flush is a fault for any other
   connection that has a socket and is not closed, being replaced or just starting to connect. Nothing
   else happens.
   */
  lemma NotWritableLeads(e: Endpoint, pol: Policy, flushed: bool, torn: bool)
    requires |e.sent| <= e.outSeq
    ensures var f := NotWritable(e, pol, flushed, torn);
            && (e.phase.Standby? && !pol.server && e.outQ != map[] ==>
                  f.phase.Connecting? && f == e.(phase := f.phase))
            && (!(e.phase.Standby? && !pol.server && e.outQ != map[]) ==>
                  if !flushed && e.wire.Some?
                     && !(e.phase.Replacing? || e.phase.Connecting? || e.phase.Closed?)
                  then f == Fault(e, pol, torn)
                  else f == e)
  {
  }

  // ---------------------------------------------------------------- message ownership

  /**
   One reference for each queued or sent message and none otherwise; while the session lives,
   every accepted message is held or finished, as often as it was accepted.
   */
  ghost predicate Owned(e: Endpoint) {
    && e.refs == Queued(e.outQ) + Ids(e.sent)
    && (!e.phase.Closed? ==> multiset(e.accepted) == e.refs + multiset(e.finished))
  }

  lemma {:induction false} IdListMultiset(l: seq<Msg>)
    ensures multiset(IdList(l)) == Ids(l)
  {
    if l != [] {
      IdListMultiset(l[1..]);
      assert IdList(l) == [l[0].id] + IdList(l[1..]);
    }
  }

  lemma SendMessageKeepsOwned(e: Endpoint, p: nat, id: nat)
    requires Owned(e)
    ensures Owned(SendMessage(e, p, id))
  {
    hide Queued, Ids, Enqueue;
    EnqueueConserves(e.outQ, p, Msg(id, 0));
  }

  /** A message is held once more after it was sent, unless the connection is closed: then nothing happens. */
  lemma SendMessageHolds(e: Endpoint, p: nat, id: nat)
    ensures e.phase.Closed? ==> SendMessage(e, p, id) == e
    ensures !e.phase.Closed? ==>
              var t := SendMessage(e, p, id);
              && t.refs[id] == e.refs[id] + 1 && t.accepted == e.accepted + [id]
              && ListAt(t.outQ, p) == ListAt(e.outQ, p) + [Msg(id, 0)]
              && forall k: nat | k != p :: ListAt(t.outQ, k) == ListAt(e.outQ, k)
  {
  }

  lemma WriteOneKeepsOwned(e: Endpoint)
    requires Owned(e)
    ensures Owned(WriteOne(e)) && WriteOne(e).refs == e.refs && WriteOne(e).finished == e.finished
  {
    hide Queued, NextOutgoing, Ids;
    NextOutgoingConserves(e.outQ);
    var m := NextOutgoing(e.outQ).0;
    if m.Some? {
      var x := Msg(m.value.id, e.outSeq + 1);
      IdsConcat(e.sent, [x]);
      IdsOne(x);
    }
  }

  lemma HandleAckKeepsOwned(e: Endpoint, acked: nat)
    requires Owned(e)
    ensures Owned(HandleAck(e, acked))
  {
    hide Queued, Ids, AckCount;
    AckConserves(e.sent, acked);
    IdListMultiset(e.sent[..AckCount(e.sent, acked)]);
  }

  lemma RequeueSentKeepsOwned(e: Endpoint)
    requires Owned(e) && |e.sent| <= e.outSeq
    ensures Owned(RequeueSent(e)) && RequeueSent(e).refs == e.refs
  {
    hide Queued, Requeue;
    RequeueConserves(e.outQ, e.sent);
  }

  lemma DiscardKeepsOwned(e: Endpoint, acked: nat)
    requires Owned(e)
    ensures Owned(DiscardRequeuedUpTo(e, acked))
  {
    hide Queued, Ids, Discard, DiscardCount;
    var l := ListAt(e.outQ, HIGHEST);
    DiscardConserves(e.outQ, acked);
    IdListMultiset(l[..DiscardCount(l, acked)]);
  }

  /** A fault moves messages back to the queue and releases none: it only stops an idle connection. */
  lemma FaultKeepsOwned(e: Endpoint, pol: Policy, torn: bool)
    requires Owned(e) && |e.sent| <= e.outSeq
    ensures var f := Fault(e, pol, torn);
            && Owned(f) && f.refs == e.refs && f.finished == e.finished
            && (f.phase.Closed? && !e.phase.Closed? ==> Stop(e) == e.(phase := Closed, wire := None))
  {
    RequeueSentKeepsOwned(e);
  }

  /** Stopping gives back the reference of every message that is queued or sent, and finishes none. */
  lemma StopReleasesAll(e: Endpoint)
    requires Owned(e) && !e.phase.Closed?
    ensures var t := Stop(e);
            && Owned(t) && t.phase.Closed? && t.wire.None? && t.refs == multiset{} && t.outQ == map[] && t.sent == []
            && t.finished == e.finished && Stop(t) == t
  {
    hide Queued, Ids;
    NothingHeld();
  }

  lemma NothingHeld()
    ensures Ids([]) == multiset{} && Queued(map[]) == multiset{}
  {
  }

  /** An accepted message is in exactly one of the queue, `sent` and the finished list. */
  lemma OnePlace(e: Endpoint, id: nat)
    requires Owned(e) && !e.phase.Closed? && multiset(e.accepted)[id] == 1
    ensures Queued(e.outQ)[id] + Ids(e.sent)[id] + multiset(e.finished)[id] == 1
    ensures e.refs[id] == 1 - multiset(e.finished)[id]
  {
  }
}
