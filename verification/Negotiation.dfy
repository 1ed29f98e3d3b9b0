/**
 The connect negotiation: what an acceptor answers to a connect message, what the connector does
 with the answer, and why the exchange ends
 (hardware_async/rdma/backed_RDMAReliableConnected.cc 1347-1646, HwMessenger.h 460-468).
 */
module Negotiation {
  import opened Wrappers

  /**
   The states of an existing connection that the acceptor tells apart. `InOpen` is exactly
   STATE_OPEN: a connection that is in the middle of reading a message is `Busy`, like one that is
   connecting or accepting.
   */
  datatype ExistingState = Closed | InOpen | InStandby | Busy

  datatype Existing = Existing(
    state: ExistingState, replacing: bool, lossy: bool, server: bool,
    connectSeq: nat, peerGlobalSeq: nat)

  /** The connection that received the connect message. */
  datatype Acceptor = Acceptor(resetcheck: bool, replacing: bool, myAddr: nat, peerAddr: nat)

  datatype Connect = Connect(connectSeq: nat, globalSeq: nat)

  datatype Decision =
    | RetryGlobal(globalSeq: nat)
    | RetrySession(connectSeq: nat)
    | ResetSession
    | Wait
    | Replace(hardReset: bool)
    | Open

  /** The part of `handle_connect_msg` after the global numbers were compared. */
  function DecideSession(e: Existing, acc: Acceptor, connectSeq: nat): Decision {
    if e.lossy then
      Replace(false)
    else if connectSeq == 0 && e.connectSeq > 0 then
      Replace(true)
    else if connectSeq < e.connectSeq then
      RetrySession(e.connectSeq + 1)
    else if connectSeq == e.connectSeq then
      if e.state.InOpen? || e.state.InStandby? then
        if acc.resetcheck && e.connectSeq == 0 then Replace(false) else RetrySession(e.connectSeq + 1)
      else if acc.peerAddr < acc.myAddr || e.server then
        Replace(false)
      else
        Wait
    else if acc.resetcheck && e.connectSeq == 0 then
      ResetSession
    else
      Replace(false)
  }

  /** `handle_connect_msg`, once protocol version, features and authorizer were accepted. */
  function Decide(existing: Option<Existing>, acc: Acceptor, c: Connect): Decision {
    match existing
    case None =>
      if !acc.replacing && c.connectSeq > 0 then ResetSession else Open
    case Some(e) =>
      if e.state.Closed? then
        Open
      else if e.replacing || c.globalSeq < e.peerGlobalSeq then
        RetryGlobal(e.peerGlobalSeq)
      else
        DecideSession(e, acc, c.connectSeq)
  }

  /**
   Each answer of the acceptor to a lossless session, and exactly when it is given. In particular an
   attempt that is older in connect_seq is never adopted, unless it starts again at 0.
   */
  lemma DecisionIff(e: Existing, acc: Acceptor, c: Connect)
    requires !e.lossy
    ensures var d := Decide(Some(e), acc, c);
            var met := !e.state.Closed? && !e.replacing && c.globalSeq >= e.peerGlobalSeq;
            var same, settled := c.connectSeq == e.connectSeq, e.state.InOpen? || e.state.InStandby?;
            && (d.Open? <==> e.state.Closed?)
            && (d.RetryGlobal? <==> !met && !d.Open?) && (d.RetryGlobal? ==> d.globalSeq == e.peerGlobalSeq)
            && (d == Replace(true) <==> met && c.connectSeq == 0 < e.connectSeq)
            && (d.RetrySession? <==> met && (0 < c.connectSeq < e.connectSeq
                                             || (same && settled && (c.connectSeq > 0 || !acc.resetcheck))))
            && (d.RetrySession? ==> d.connectSeq == e.connectSeq + 1)
            && (d.Wait? <==> met && same && !settled && acc.peerAddr >= acc.myAddr && !e.server)
            && (d.ResetSession? <==> met && e.connectSeq == 0 < c.connectSeq && acc.resetcheck)
            && (d == Replace(false) ==> c.connectSeq >= e.connectSeq)
  {
  }

  // ---------------------------------------------------------------- the connector

  /** `counter` is the messenger's global_seq; the other fields belong to the connection. */
  datatype Connector = Connector(connectSeq: nat, globalSeq: nat, counter: nat, gotBadAuth: bool)

  /** `get_global_seq`: the counter after the call, which is also the number handed out. */
  function NextGlobalSeq(counter: nat, atLeast: nat): nat {
    (if atLeast > counter then atLeast else counter) + 1
  }

  predicate IsRetry(d: Decision) {
    d.RetryGlobal? || d.RetrySession? || d.ResetSession?
  }

  /** `handle_connect_reply` for the three tags that send the connect message again. */
  function AfterRetry(k: Connector, d: Decision): Connector
    requires IsRetry(d)
  {
    match d
    case RetryGlobal(g) =>
      var n := NextGlobalSeq(k.counter, g); k.(globalSeq := n, counter := n)
    case RetrySession(c) => k.(connectSeq := c)
    case ResetSession => k.(connectSeq := 0)
  }

  /** Whether the session numbers alone would make the acceptor ask for another attempt. */
  predicate SessionRetries(existing: Option<Existing>, acc: Acceptor, connectSeq: nat) {
    match existing
    case None => !acc.replacing && connectSeq > 0
    case Some(e) => !e.state.Closed? && IsRetry(DecideSession(e, acc, connectSeq))
  }

  predicate GlobalRetries(existing: Option<Existing>, globalSeq: nat) {
    existing.Some? && !existing.value.state.Closed? && globalSeq < existing.value.peerGlobalSeq
  }

  function Measure(existing: Option<Existing>, acc: Acceptor, k: Connector): (n: nat)
    ensures n <= 2
  {
    (if GlobalRetries(existing, k.globalSeq) then 1 else 0)
    + (if SessionRetries(existing, acc, k.connectSeq) then 1 else 0)
  }

  ghost predicate Fixed(existing: Option<Existing>) {
    existing.Some? ==> !existing.value.replacing
  }

  /** Each of the three retry replies makes the measure smaller. */
  lemma RetryDecreases(existing: Option<Existing>, acc: Acceptor, k: Connector)
    requires Fixed(existing)
    requires IsRetry(Decide(existing, acc, Connect(k.connectSeq, k.globalSeq)))
    ensures var d := Decide(existing, acc, Connect(k.connectSeq, k.globalSeq));
            Measure(existing, acc, AfterRetry(k, d)) < Measure(existing, acc, k)
  {
  }

  /** The assert of `handle_connect_reply`: a RETRY_SESSION always raises connect_seq. */
  lemma RetrySessionRaises(existing: Option<Existing>, acc: Acceptor, c: Connect)
    ensures var d := Decide(existing, acc, c); d.RetrySession? ==> d.connectSeq > c.connectSeq
  {
  }

  /**
   The acceptor's asserts. WAIT is answered only to a peer with a higher address if and only if the two
   addresses differ; and a message that gets past every comparison is newer in both numbers.
   */
  lemma AcceptorAsserts(e: Existing, acc: Acceptor, c: Connect)
    ensures Decide(Some(e), acc, c).Wait? ==> (acc.peerAddr > acc.myAddr <==> acc.peerAddr != acc.myAddr)
    ensures !e.state.Closed? && !e.replacing && !(c.globalSeq < e.peerGlobalSeq) && !e.lossy
            && !(c.connectSeq == 0 && e.connectSeq > 0) && !(c.connectSeq < e.connectSeq)
                && c.connectSeq != e.connectSeq
            ==> && c.connectSeq > e.connectSeq && c.globalSeq >= e.peerGlobalSeq
                && Decide(Some(e), acc, c) == if acc.resetcheck
                    && e.connectSeq == 0 then ResetSession else Replace(false)
  {
  }

  /** Where every chain of retries ends, read off the first attempt's connect_seq alone. */
  function FinalDecision(existing: Option<Existing>, acc: Acceptor, connectSeq: nat): Decision {
    match existing
    case None => Open
    case Some(e) =>
      if e.state.Closed? then Open
      else if LosesRace(e, acc, connectSeq) then Wait
      else Replace(!e.lossy && connectSeq == 0 && e.connectSeq > 0)
  }

  /** The only way to be told to wait: both sides are mid-handshake and ours is the winning attempt. */
  predicate LosesRace(e: Existing, acc: Acceptor, connectSeq: nat) {
    && e.state.Busy? && !e.lossy && !e.server && acc.myAddr <= acc.peerAddr
    && (connectSeq == e.connectSeq || (connectSeq > e.connectSeq == 0 && acc.resetcheck))
  }

  /** A retry does not change where the negotiation ends. */
  lemma RetryKeepsFinalDecision(existing: Option<Existing>, acc: Acceptor, k: Connector)
    requires Fixed(existing)
    ensures var d := Decide(existing, acc, Connect(k.connectSeq, k.globalSeq));
            if IsRetry(d) then
              FinalDecision(existing, acc, AfterRetry(k, d).connectSeq)
              == FinalDecision(existing, acc, k.connectSeq)
            else
              d == FinalDecision(existing, acc, k.connectSeq)
  {
  }

  // ---------------------------------------------------------------- the two parties running

  datatype Outcome = Adopted | Opened | MustWait | AuthFailed

  function OutcomeOf(d: Decision): Outcome
    requires !IsRetry(d)
  {
    match d
    case Wait => MustWait
    case Replace(_) => Adopted
    case Open => Opened
  }

  class ConnectorConn {
    var connectSeq: nat
    var globalSeq: nat
    var counter: nat
    var gotBadAuth: bool

    function View(): Connector
      reads this
    {
      Connector(connectSeq, globalSeq, counter, gotBadAuth)
    }

    constructor (connectSeq: nat, counter: nat)
      ensures View() == Connector(connectSeq, counter + 1, counter + 1, false)
    {
      this.connectSeq := connectSeq;
      this.counter := counter + 1;
      this.globalSeq := counter + 1;
      this.gotBadAuth := false;
    }

    /** `get_global_seq`: a number above every number handed out before and above `atLeast`. */
    method GetGlobalSeq(atLeast: nat) returns (r: nat)
      modifies this`counter
      ensures r == counter == NextGlobalSeq(old(counter), atLeast)
      ensures r > old(counter) && r > atLeast
    {
      if atLeast > counter {
        counter := atLeast;
      }
      counter := counter + 1;
      r := counter;
    }

    /** The three retry tags of `handle_connect_reply`. */
    method HandleRetry(d: Decision)
      requires IsRetry(d)
      requires d.RetrySession? ==> d.connectSeq > connectSeq
      modifies this
      ensures View() == AfterRetry(old(View()), d)
    {
      if d.ResetSession? {
        connectSeq := 0;
      }
      if d.RetryGlobal? {
        var g := GetGlobalSeq(d.globalSeq);
        globalSeq := g;
      }
      if d.RetrySession? {
        assert d.connectSeq > connectSeq;
        connectSeq := d.connectSeq;
      }
    }

    /**
     The connect message is sent until the acceptor answers something other than a retry. `auth`
     gives the verdicts of the authorizer check on the first attempts (later ones pass); a second
     refusal fails the connection. At most four messages are sent, and the outcome is decided by
     the first connect_seq alone.
     */
    method Negotiate(existing: Option<Existing>, acc: Acceptor, auth: seq<bool>)
      returns (outcome: Outcome, attempts: nat)
      requires Fixed(existing) && !gotBadAuth
      modifies this
      ensures 1 <= attempts <= 4
      ensures outcome.AuthFailed? || outcome == OutcomeOf(FinalDecision(existing, acc, old(connectSeq)))
      ensures (forall i | 0 <= i < |auth| :: auth[i]) ==> !outcome.AuthFailed? && attempts <= 3
      ensures outcome.Adopted? && !existing.value.lossy && !(old(connectSeq) == 0 && existing.value.connectSeq > 0)
              ==> connectSeq > existing.value.connectSeq || existing.value.state.Busy?
                  || (connectSeq == existing.value.connectSeq == 0 && acc.resetcheck)
    {
      attempts := 0;
      while true
        invariant attempts + Measure(existing, acc, View()) + (if gotBadAuth then 0 else 1) <= 3
        invariant gotBadAuth ==> exists i :: 0 <= i < |auth| && !auth[i]
        invariant !gotBadAuth ==> attempts + Measure(existing, acc, View()) <= 2
        invariant FinalDecision(existing, acc, connectSeq) == FinalDecision(existing, acc, old(connectSeq))
        invariant existing.Some? && connectSeq == 0 && existing.value.connectSeq > 0 ==> old(connectSeq) == 0
        decreases Measure(existing, acc, View()), !gotBadAuth
      {
        var accepted := attempts < |auth| ==> auth[attempts];
        attempts := attempts + 1;
        if !accepted {
          if gotBadAuth {
            return AuthFailed, attempts;
          }
          gotBadAuth := true;
        } else {
          var d := Decide(existing, acc, Connect(connectSeq, globalSeq));
          RetryKeepsFinalDecision(existing, acc, View());
          if !IsRetry(d) {
            return OutcomeOf(d), attempts;
          }
          RetrySessionRaises(existing, acc, Connect(connectSeq, globalSeq));
          RetryDecreases(existing, acc, View());
          HandleRetry(d);
        }
      }
    }
  }
}
