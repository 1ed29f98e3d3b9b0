/**
 Two peers connect to each other at the same time: which of the crossing attempts survives
 (hardware_async/rdma/backed_RDMAReliableConnected.cc 1154-1170, 1410-1434, 1513-1630, 1690-1770, 1771-1830, 2078-2119).
 Neither side is a server or lossy, both start with the same connect_seq, and their global numbers are fresh.
 No socket breaks during the race.
 */
module Race {
  import opened Wrappers
  import opened Negotiation

  /** A reply on the way back to the peer that sent a connect message. */
  datatype Reply = Retry(d: Decision) | Told | Accepted(globalSeq: nat)

  /**
   `lo` and `hi` are the two connections, lo's owner having the lower address. Each peer has one attempt
   under way: its connect message, then the reply to it. `alive` of hi's attempt turns false when hi
   gives up its own socket for lo's. hiCounter is the last global number hi's messenger has handed out.
   */
  datatype State = State(
    lo: Existing, hi: Existing,
    loMsg: Option<Connect>, loReply: Option<Reply>,
    hiMsg: Option<Connect>, hiReply: Option<Reply>, hiAlive: bool, hiCounter: nat,
    loAdoptions: nat,       // how often hi has adopted lo's attempt
    hiAdoptions: nat,       // and the other way round
    loTold: nat,            // how often lo was told to wait
    hiTold: nat)

  /** The addresses, and whether the policies check for resets. */
  datatype Config = Config(loAddr: nat, hiAddr: nat, loResetcheck: bool, hiResetcheck: bool)

  datatype Action =
    | AtHi                       // hi's owner handles lo's connect message
    | AtLo                       // lo's owner handles hi's
    | LoReads(globalSeq: nat)    // lo handles the reply; it draws this global number if asked to retry
    | HiReads
    | HiAgain                    // hi tries again after it was told to wait

  ghost predicate Init(c: Config, s: State) {
    && c.loAddr < c.hiAddr
    && s.lo.state.Busy? && s.hi.state.Busy? && !s.lo.replacing && !s.hi.replacing
    && !s.lo.lossy && !s.hi.lossy && !s.lo.server && !s.hi.server && s.lo.connectSeq == s.hi.connectSeq
    && s.loMsg.Some? && s.hiMsg.Some? && s.loReply.None? && s.hiReply.None? && s.hiAlive
    && s.loMsg.value.connectSeq == s.lo.connectSeq && s.loMsg.value.globalSeq >= s.hi.peerGlobalSeq
    && s.hiMsg.value.connectSeq == s.hi.connectSeq && s.hiCounter >= s.hiMsg.value.globalSeq >= s.lo.peerGlobalSeq
    && s.loAdoptions == s.hiAdoptions == s.loTold == s.hiTold == 0
  }

  predicate Enabled(s: State, a: Action) {
    match a
    case AtHi => s.loMsg.Some?
    case AtLo => s.hiMsg.Some?
    case LoReads(g) => s.loReply.Some? && (s.loReply.value.Retry? && s.loReply.value.d.RetryGlobal? ==>
        g > s.loReply.value.d.globalSeq)
    case HiReads => s.hiReply.Some? && s.hiAlive
    case HiAgain => s.hi.state.Busy? && !s.hi.replacing && s.loAdoptions == 0 && s.hiMsg.None? && s.hiReply.None?
  }

  /**
   The answer of hi's owner to lo. Before the adoption the message meets the existing connection; after
   it the existing connection itself reads the next one, so there is nothing else to compare with.
   */
  function AnswerHi(c: Config, s: State): Decision
    requires s.loMsg.Some?
  {
    if s.loAdoptions > 0
    then Decide(None, Acceptor(c.hiResetcheck, true, c.hiAddr, c.loAddr), s.loMsg.value)
    else Decide(Some(s.hi), Acceptor(c.hiResetcheck, false, c.hiAddr, c.loAddr), s.loMsg.value)
  }

  function AnswerLo(c: Config, s: State): Decision
    requires s.hiMsg.Some?
  {
    Decide(Some(s.lo), Acceptor(c.loResetcheck, false, c.loAddr, c.hiAddr), s.hiMsg.value)
  }

  function Step(c: Config, s: State, a: Action): State
    requires Enabled(s, a)
  {
    match a
    case AtHi =>
      var s1 := s.(loMsg := None);
      (match AnswerHi(c, s)
       case Replace(_) =>
         // the existing connection takes lo's socket and drops its own; lo is asked to send again
         s1.(hi := s.hi.(replacing := true), hiAlive := false, loAdoptions := s.loAdoptions + 1,
             loReply := Some(Retry(RetryGlobal(s.hi.peerGlobalSeq))))
       case Open =>
         s1.(hi := s.hi.(replacing := false, state := InOpen, connectSeq := s.loMsg.value.connectSeq + 1,
                         peerGlobalSeq := s.loMsg.value.globalSeq),
             hiCounter := s.hiCounter + 1, loReply := Some(Accepted(s.hiCounter + 1)))
       case Wait => s1.(loTold := s.loTold + 1, loReply := Some(Told))
       case d => s1.(loReply := Some(Retry(d))))
    case AtLo =>
      var s1 := s.(hiMsg := None);
      (match AnswerLo(c, s)
       case Replace(_) => s1.(hiAdoptions := s.hiAdoptions + 1, hiReply := Some(Accepted(0)))
       case Open => s1.(hiAdoptions := s.hiAdoptions + 1, hiReply := Some(Accepted(0)))
       case Wait => s1.(hiTold := s.hiTold + 1, hiReply := Some(Told))
       case d => s1.(hiReply := Some(Retry(d))))
    case LoReads(g) =>
      var s1 := s.(loReply := None);
      (match s.loReply.value
       case Accepted(n) => s1.(lo := s.lo.(state := InOpen, connectSeq := s.lo.connectSeq + 1, peerGlobalSeq := n))
       case Told => s1
       case Retry(RetryGlobal(_)) => s1.(loMsg := Some(Connect(s.lo.connectSeq, g)))
       case Retry(RetrySession(n)) => s1.(lo := s.lo.(connectSeq := n), loMsg := Some(Connect(n, g)))
       case Retry(_) => s1.(lo := s.lo.(connectSeq := 0), loMsg := Some(Connect(0, g))))
    case HiReads => s.(hiReply := None)
    case HiAgain => s.(hiCounter := s.hiCounter + 1, hiMsg := Some(Connect(s.hi.connectSeq, s.hiCounter + 1)))
  }

  /** Where the two attempts stand. */
  ghost predicate Inv(c: Config, s: State) {
    && c.loAddr < c.hiAddr
    && !s.lo.lossy && !s.hi.lossy && !s.lo.server && !s.hi.server && !s.lo.replacing
    && s.hiAdoptions == 0 && s.loTold == 0 && s.loAdoptions <= 1
    && (s.lo.state.Busy? ==> s.hiCounter >= s.lo.peerGlobalSeq)
    && (s.hiMsg.Some? && s.lo.state.Busy? ==>
          s.hiMsg.value.globalSeq >= s.lo.peerGlobalSeq && s.hiMsg.value.connectSeq == s.lo.connectSeq)
    && (s.hiMsg.Some? ==> s.hiMsg.value.globalSeq <= s.hiCounter)
    && (s.hiMsg.Some? && (!s.lo.state.Busy? || (s.loReply.Some? && s.loReply.value.Accepted?)) ==>
          s.hiMsg.value.globalSeq < if s.lo.state.Busy? then s.loReply.value.globalSeq else s.lo.peerGlobalSeq)
    && (s.hiMsg.Some? ==> s.hiMsg.value.connectSeq + (if s.lo.state.Busy? then 0 else 1) == s.lo.connectSeq)
    && (s.hiReply.Some? ==> !s.hiReply.value.Accepted? && (s.hiReply.value.Told? || !s.hiAlive))
    && (s.hiAlive <==> s.loAdoptions == 0)
    && (s.loAdoptions == 0 ==>
          && s.lo.state.Busy? && s.hi.state.Busy? && !s.hi.replacing && s.lo.connectSeq == s.hi.connectSeq
          && s.loReply.None? && s.loMsg.Some?
          && s.loMsg.value.connectSeq == s.lo.connectSeq && s.loMsg.value.globalSeq >= s.hi.peerGlobalSeq)
    && (s.loAdoptions == 1 && s.lo.state.Busy? ==>
          || (s.loMsg.Some? && s.loReply.None? && s.hi.state.Busy? && s.hi.replacing
              && s.hi.connectSeq == s.lo.connectSeq
              && s.loMsg.value.connectSeq == s.lo.connectSeq)
          || (s.loMsg.None? && s.loReply.Some? && s.loReply.value.Retry? && s.loReply.value.d.RetryGlobal?
              && s.hi.state.Busy? && s.hi.replacing && s.hi.connectSeq == s.lo.connectSeq)
          || (s.loMsg.None? && s.loReply.Some? && s.loReply.value.Accepted? && s.hi.state.InOpen?
              && !s.hi.replacing && s.hi.connectSeq == s.lo.connectSeq + 1))
    && (s.loAdoptions == 1 && !s.lo.state.Busy? ==>
          s.lo.state.InOpen? && s.hi.state.InOpen? && s.lo.connectSeq == s.hi.connectSeq && s.loMsg.None?
              && s.loReply.None?)
  }

  lemma StepKeepsInv(c: Config, s: State, a: Action)
    requires Inv(c, s) && Enabled(s, a)
    ensures Inv(c, Step(c, s, a))
  {
  }

  ghost predicate CanRun(c: Config, s: State, run: seq<Action>)
    decreases |run|
  {
    run == [] || (Enabled(s, run[0]) && CanRun(c, Step(c, s, run[0]), run[1..]))
  }

  ghost function After(c: Config, s: State, run: seq<Action>): State
    requires CanRun(c, s, run)
    decreases |run|
  {
    if run == [] then s else After(c, Step(c, s, run[0]), run[1..])
  }

  lemma {:induction false} RunKeepsInv(c: Config, s: State, run: seq<Action>)
    requires Inv(c, s) && CanRun(c, s, run)
    ensures Inv(c, After(c, s, run))
    decreases |run|
  {
    hide Inv, Step, Enabled;
    if run != [] {
      StepKeepsInv(c, s, run[0]);
      RunKeepsInv(c, Step(c, s, run[0]), run[1..]);
    }
  }

  /**
   In every interleaving of the two handshakes: the attempt from the lower address is the only one ever
   adopted, at most once, and its sender is never told to wait. Until it is adopted it is on its way,
   and handling it adopts it. The other attempt, whenever it is handled, is told to wait if the lower
   side is still connecting, and otherwise gets a retry on a socket its sender has already given up.
   */
  lemma OneAttemptWins(c: Config, s0: State, run: seq<Action>)
    requires Init(c, s0) && CanRun(c, s0, run)
    ensures var s := After(c, s0, run);
            && s.hiAdoptions == 0 && s.loTold == 0 && s.loAdoptions <= 1
            && (s.loAdoptions == 0 ==> s.hiAlive && Enabled(s, AtHi) && AnswerHi(c, s) == Replace(false))
            && (s.loAdoptions == 1 ==> !s.hiAlive)
            && (Enabled(s, AtLo) ==>
                  if s.lo.state.Busy? then AnswerLo(c, s) == Decision.Wait
                  else AnswerLo(c, s) == RetryGlobal(s.lo.peerGlobalSeq) && !s.hiAlive)
            && (Enabled(s, HiReads) ==> s.hiReply == Some(Told))
  {
    RunKeepsInv(c, s0, run);
  }

  /**
   The side that was told to wait may try again, with a newer number, as often as it likes: as long as its
   own attempt can be made at all, it is told to wait again.
   */
  lemma TryingAgainChangesNothing(c: Config, s: State)
    requires Inv(c, s) && Enabled(s, HiAgain)
    ensures var t := Step(c, s, HiAgain);
            && Enabled(t, AtLo) && t.hiMsg.value.connectSeq == s.hi.connectSeq
            && t.hiMsg.value.globalSeq > s.hiCounter && t.hiCounter == t.hiMsg.value.globalSeq
            && AnswerLo(c, t) == Decision.Wait
            && Step(c, t, AtLo) == t.(hiMsg := None, hiReply := Some(Told), hiTold := s.hiTold + 1)
  {
  }

  /** A step of the lower side's attempt: its message is handled, or it reads the reply. */
  predicate IsLoStep(a: Action) {
    a.AtHi? || a.LoReads?
  }

  function LoSteps(run: seq<Action>): nat {
    if run == [] then 0 else (if IsLoStep(run[0]) then 1 else 0) + LoSteps(run[1..])
  }

  /** How many such steps are left: adoption, retry, the second message, the final reply. */
  function Distance(s: State): nat {
    if !s.lo.state.Busy? then 0
    else if s.loAdoptions == 0 then 4
    else if s.loReply.Some? then (if s.loReply.value.Retry? then 3 else 1)
    else 2
  }

  /** The lower side's steps come one after the other whatever the higher side does, and none is ever blocked. */
  lemma LoAdvances(c: Config, s: State, a: Action)
    requires Inv(c, s)
    ensures Distance(s) > 0 ==> Enabled(s, AtHi) || exists g :: Enabled(s, LoReads(g))
    ensures Enabled(s, a) ==> Distance(s) == Distance(Step(c, s, a)) + (if IsLoStep(a) then 1 else 0)
  {
    if s.loReply.Some? {
      var r := s.loReply.value;
      assert Enabled(s, LoReads(if r.Retry? && r.d.RetryGlobal? then r.d.globalSeq + 1 else 0));
    }
  }

  lemma {:induction false} DistanceAfter(c: Config, s: State, run: seq<Action>)
    requires Inv(c, s) && CanRun(c, s, run)
    ensures Distance(After(c, s, run)) == Distance(s) - LoSteps(run)
    decreases |run|
  {
    hide Inv, Step, Enabled, Distance;
    if run != [] {
      StepKeepsInv(c, s, run[0]);
      LoAdvances(c, s, run[0]);
      DistanceAfter(c, Step(c, s, run[0]), run[1..]);
    }
  }

  /**
   The race ends with the fourth step of the lower side and not before; until then such a step can be
   taken. At the end exactly one attempt was adopted, and both ends are open with the same connect_seq.
   */
  lemma RaceEndsOpen(c: Config, s0: State, run: seq<Action>)
    requires Init(c, s0) && CanRun(c, s0, run)
    ensures var s := After(c, s0, run);
            && LoSteps(run) <= 4
            && (LoSteps(run) < 4 ==> Enabled(s, AtHi) || exists g :: Enabled(s, LoReads(g)))
            && (!s.lo.state.Busy? <==> LoSteps(run) == 4)
            && (LoSteps(run) == 4 ==>
                  && s.loAdoptions == 1 && s.hiAdoptions == 0
                  && s.lo.state.InOpen? && s.hi.state.InOpen? && s.lo.connectSeq == s.hi.connectSeq)
  {
    RunKeepsInv(c, s0, run);
    DistanceAfter(c, s0, run);
    LoAdvances(c, After(c, s0, run), HiAgain);
  }

  /**
   What the new global number in the accepting reply is for: an attempt of a first session
   (connect_seq 0) that is handled after the winner has opened would be taken for a reset of the peer,
   and replace the open session, exactly if its number were not older.
   */
  lemma LateAttemptWouldReset(e: Existing, acc: Acceptor, globalSeq: nat)
    requires e.state.InOpen? && !e.replacing && !e.lossy && e.connectSeq > 0
    ensures Decide(Some(e), acc, Connect(0, globalSeq)) == Replace(true) <==> globalSeq >= e.peerGlobalSeq
    ensures globalSeq < e.peerGlobalSeq ==> Decide(Some(e), acc, Connect(0, globalSeq)) == RetryGlobal(e.peerGlobalSeq)
  {
  }
}
