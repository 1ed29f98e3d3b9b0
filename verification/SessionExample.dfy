/**
 One run of the two-party session, from nothing: a message is written, the socket is cut before it
 arrives, the client reconnects, the server swaps its socket, and the message arrives on the second one.
 It shows that the steps of Session fit together and that a replay is really taken.
 */
module SessionExample {
  import opened Wrappers
  import opened SendQueue
  import opened Endpoints
  import opened Negotiation
  import opened Session
  import SessionSteps

  const CLIENT := Policy(false, false, false)
  const SERVER := Policy(true, false, false)

  /** Runs can be put one after the other. */
  lemma {:induction false} Join(s: State, first: seq<Action>, t: State, second: seq<Action>, u: State)
    requires Run(s, first, t) && Run(t, second, u)
    ensures Run(s, first + second, u)
    decreases |first|
  {
    hide Enabled, Step;
    if first == [] {
      assert first + second == second;
    } else {
      Join(Step(s, first[0]), first[1..], t, second, u);
      assert (first + second)[1..] == first[1..] + second;
    }
  }

  lemma Three(s: State, a: Action, t: State, b: Action, u: State, c: Action, v: State)
    requires Enabled(s, a) && t == Step(s, a) && Enabled(t, b) && u == Step(t, b) && Enabled(u, c) && v == Step(u, c)
    ensures Run(s, [a, b, c], v)
  {
    hide Enabled, Step;
    assert [a, b, c][1..] == [b, c] && [b, c][1..] == [c] && [c][1..] == [];
    assert Run(v, [], v);
    assert Run(u, [c], v);
    assert Run(t, [b, c], v);
  }

  function Net(forward: seq<Packet>, back: seq<Packet>, stage: nat, adopted: bool): Wire {
    Wire(A, Channel(forward, true), Channel(back, true), stage, adopted)
  }

  /** The server takes a packet off the socket and writes `out`. */
  lemma AtServer(q: seq<Packet>, back: seq<Packet>, stage: nat, adopted: bool, out: seq<Packet>, q2: seq<Packet>,
      back2: seq<Packet>)
    requires q != [] && q[1..] == q2 && back + out == back2
    ensures Exchange(Net(q, back, stage, adopted), B, out) == Net(q2, back2, stage, adopted)
  {
  }

  lemma AtClient(forward: seq<Packet>, q: seq<Packet>, stage: nat, adopted: bool, out: seq<Packet>,
      forward2: seq<Packet>, q2: seq<Packet>)
    requires q != [] && q[1..] == q2 && forward + out == forward2
    ensures Exchange(Net(forward, q, stage, adopted), A, out) == Net(forward2, q2, stage, adopted)
  {
  }

  /** Appending to what the server, or the client, writes. */
  lemma Appends(forward: seq<Packet>, back: seq<Packet>, stage: nat, adopted: bool, pk: Packet)
    ensures var w := Net(forward, back, stage, adopted);
            && WithOut(w, A, Push(Out(w, A), [pk])) == Net(forward + [pk], back, stage, adopted)
            && WithOut(w, B, Push(Out(w, B), [pk])) == Net(forward, back + [pk], stage, adopted)
  {
  }

  lemma Swapped(x: Wire, y: Wire, z: Wire)
    ensures [x][0 := y] == [y] && [x, y][1 := z] == [x, z] && [x] + [y] == [x, y]
  {
  }

  /** The first socket once its client-to-server direction is gone. */
  function Dead(): Wire {
    Wire(A, Channel([], false), Channel([], true), 3, true)
  }

  // the client, then the server, at the ends of the stretches below

  function Client1(): Endpoint {
    NO_ENDPOINT.(phase := WaitReply, wire := Some(0), outQ := map[127 := [Msg(7, 0)]], globalSeq := 1, counter := 1,
                refs := multiset{7}, accepted := [7])
  }

  function Client2(): Endpoint {
    Client1().(phase := ConnectReady(1, 1))
  }

  function Client3(): Endpoint {
    Client1().(phase := Phase.Open, onceReady := true, connectSeq := 1, peerGlobalSeq := 1,
               outQ := map[], sent := [Msg(7, 1)], outSeq := 1, log := [7])
  }

  function Client4(): Endpoint {
    Client3().(phase := WaitReply, wire := Some(1), connectSeq := 2, globalSeq := 2, counter := 2,
               outQ := map[HIGHEST := [Msg(7, 1)]], sent := [], outSeq := 0)
  }

  function Client5(): Endpoint {
    Client4().(globalSeq := 3, counter := 3)
  }

  function Client6(): Endpoint {
    Client5().(phase := ConnectReady(3, 2))
  }

  function Client7(): Endpoint {
    Client5().(phase := Phase.Open, connectSeq := 3, peerGlobalSeq := 2, outQ := map[], sent := [Msg(7, 1)],
        outSeq := 1)
  }

  function Server2(): Endpoint {
    NO_ENDPOINT.(phase := AcceptWaitSeq, wire := Some(0), onceReady := true, connectSeq := 1, peerGlobalSeq := 1,
        counter := 1)
  }

  function Server3(): Endpoint {
    Server2().(phase := Phase.Open)
  }

  function Server5(): Endpoint {
    Server3().(phase := AcceptWaitConnect, replacing := true, wire := Some(1))
  }

  function Server6(): Endpoint {
    Server5().(phase := AcceptWaitSeq, replacing := false, connectSeq := 3, peerGlobalSeq := 3, counter := 2)
  }

  function Server7(): Endpoint {
    Server6().(phase := Phase.Open)
  }

  lemma Connects(cfg: Config) returns (acts: seq<Action>)
    requires cfg.polA == CLIENT && cfg.polB == SERVER
    ensures Run(Init(cfg), acts, State(cfg, Client1(), NO_ENDPOINT, [Net([ConnectMsg(0, 1)], [], 0, false)]))
  {
    var s := Init(cfg);
    var t := Step(s, Start(A));
    assert ListAt(map[], 127) + [Msg(7, 0)] == [Msg(7, 0)];
    var u := Step(t, Send(A, 127, 7));
    var v := Step(u, Attempt(A));
    acts := [Start(A), Send(A, 127, 7), Attempt(A)];
    Three(s, acts[0], t, acts[1], u, acts[2], v);
  }

  lemma Accepted(cfg: Config) returns (acts: seq<Action>)
    requires cfg.polA == CLIENT && cfg.polB == SERVER
    ensures Run(State(cfg, Client1(), NO_ENDPOINT, [Net([ConnectMsg(0, 1)], [], 0, false)]), acts,
                State(cfg, Client2(), Server2(), [Net([InSeq(0)], [], 2, true)]))
  {
    hide Exchange, DiscardRequeuedUpTo, NextOutgoing;
    var s := State(cfg, Client1(), NO_ENDPOINT, [Net([ConnectMsg(0, 1)], [], 0, false)]);
    var t := State(cfg, Client1(), Server2(), [Net([], [SeqReply(1, 1), InSeq(0)], 1, true)]);
    var u := State(cfg, Client1().(phase := WaitAckSeq(1, 1)), Server2(), [Net([], [InSeq(0)], 1, true)]);
    var v := State(cfg, Client2(), Server2(), [Net([InSeq(0)], [], 2, true)]);
    acts := [Accept(0, true), Receive(A), Receive(A)];
    AtServer([ConnectMsg(0, 1)], [], 0, false, [SeqReply(1, 1), InSeq(0)], [], [SeqReply(1, 1), InSeq(0)]);
    Swapped(s.wires[0], t.wires[0], t.wires[0]);
    assert Step(s, acts[0]) == t;
    AtClient([], [SeqReply(1, 1), InSeq(0)], 1, true, [], [], [InSeq(0)]);
    Swapped(t.wires[0], u.wires[0], u.wires[0]);
    assert Step(t, acts[1]) == u;
    AtClient([], [InSeq(0)], 1, true, [InSeq(0)], [InSeq(0)], []);
    Swapped(u.wires[0], v.wires[0], v.wires[0]);
    SessionSteps.NothingToDiscard(Client1().(phase := WaitAckSeq(1, 1)));
    assert Step(u, acts[2]) == v;
    Three(s, acts[0], t, acts[1], u, acts[2], v);
  }

  lemma Writes(cfg: Config) returns (acts: seq<Action>)
    requires cfg.polA == CLIENT && cfg.polB == SERVER
    ensures Run(State(cfg, Client2(), Server2(), [Net([InSeq(0)], [], 2, true)]), acts,
                State(cfg, Client3(), Server3(), [Net([Data(7, 1)], [], 3, true)]))
  {
    hide Exchange, DiscardRequeuedUpTo, NextOutgoing, Push, Decide;
    var s := State(cfg, Client2(), Server2(), [Net([InSeq(0)], [], 2, true)]);
    var ready := Client1().(phase := Phase.Open, onceReady := true, connectSeq := 1, peerGlobalSeq := 1);
    var t := State(cfg, ready, Server2(), s.wires);
    var u := State(cfg, ready, Server3(), [Net([], [], 3, true)]);
    var v := State(cfg, Client3(), Server3(), [Net([Data(7, 1)], [], 3, true)]);
    acts := [Ready(A), Receive(B), Write(A)];
    assert Step(s, acts[0]) == t;
    AtServer([InSeq(0)], [], 2, true, [], [], []);
    Swapped(t.wires[0], u.wires[0], u.wires[0]);
    SessionSteps.NothingToDiscard(Server2());
    assert Step(t, acts[1]) == u;
    OneMessage(127, Msg(7, 0));
    Appends([], [], 3, true, Data(7, 1));
    assert [] + [Data(7, 1)] == [Data(7, 1)] && [] + [Msg(7, 1)] == [Msg(7, 1)] && [] + [7] == [7];
    Swapped(u.wires[0], v.wires[0], v.wires[0]);
    assert Step(u, acts[2]) == v;
    Three(s, acts[0], t, acts[1], u, acts[2], v);
  }

  lemma OneMessage(p: nat, m: Msg)
    ensures NextOutgoing(map[p := [m]]) == (Some(m), map[])
  {
    assert p in map[p := [m]];
    assert TopPriority(map[p := [m]]) == p;
    assert map[p := [m]] - {p} == map[];
  }

  /** The packet is lost, the client notices and tries again. */
  lemma Breaks(cfg: Config) returns (acts: seq<Action>)
    requires cfg.polA == CLIENT && cfg.polB == SERVER
    ensures Run(State(cfg, Client3(), Server3(), [Net([Data(7, 1)], [], 3, true)]), acts,
                State(cfg, Client4(), Server3(), [Dead(), Net([ConnectMsg(2, 2)], [], 0, false)]))
  {
    var s := State(cfg, Client3(), Server3(), [Net([Data(7, 1)], [], 3, true)]);
    var t := State(cfg, Client3(), Server3(), [Dead()]);
    var u := State(cfg, Client4().(phase := Phase.Connecting, wire := None, globalSeq := 1, counter := 1), Server3(),
        [Dead()]);
    var v := State(cfg, Client4(), Server3(), [Dead(), Net([ConnectMsg(2, 2)], [], 0, false)]);
    acts := [Cut(0, true, 0), Break(A, false), Attempt(A)];
    Swapped(s.wires[0], t.wires[0], t.wires[0]);
    assert Step(s, acts[0]) == t;
    assert [Msg(7, 1)] + [] == [Msg(7, 1)];
    assert Requeue(map[], [Msg(7, 1)]) == map[HIGHEST := [Msg(7, 1)]];
    assert HIGHEST in Requeue(map[], [Msg(7, 1)]);
    assert Step(t, acts[1]) == u;
    Swapped(Dead(), v.wires[1], v.wires[1]);
    assert Step(u, acts[2]) == v;
    Three(s, acts[0], t, acts[1], u, acts[2], v);
  }

  /** The server adopts the new socket for its session and asks for the connect message again. */
  lemma Swaps(cfg: Config) returns (acts: seq<Action>)
    requires cfg.polA == CLIENT && cfg.polB == SERVER
    ensures Run(State(cfg, Client4(), Server3(), [Dead(), Net([ConnectMsg(2, 2)], [], 0, false)]), acts,
                State(cfg, Client5(), Server5(), [Dead(), Net([ConnectMsg(2, 3)], [], 0, true)]))
  {
    hide Exchange, DiscardRequeuedUpTo, NextOutgoing, Push;
    var s := State(cfg, Client4(), Server3(), [Dead(), Net([ConnectMsg(2, 2)], [], 0, false)]);
    var t := State(cfg, Client4(), Server5().(phase := Replacing), [Dead(), Net([], [], 0, true)]);
    var u := State(cfg, Client4(), Server5(), [Dead(), Net([], [Reply(RetryGlobal(1))], 0, true)]);
    var v := State(cfg, Client5(), Server5(), [Dead(), Net([ConnectMsg(2, 3)], [], 0, true)]);
    acts := [Accept(1, true), FinishReplace(B), Receive(A)];
    AtServer([ConnectMsg(2, 2)], [], 0, false, [], [], []);
    Swapped(Dead(), s.wires[1], t.wires[1]);
    assert Step(s, acts[0]) == t;
    Appends([], [], 0, true, Reply(RetryGlobal(1)));
    assert [] + [Reply(RetryGlobal(1))] == [Reply(RetryGlobal(1))];
    Swapped(Dead(), t.wires[1], u.wires[1]);
    assert Step(t, acts[1]) == u;
    AtClient([], [Reply(RetryGlobal(1))], 0, true, [ConnectMsg(2, 3)], [ConnectMsg(2, 3)], []);
    Swapped(Dead(), u.wires[1], v.wires[1]);
    assert Step(u, acts[2]) == v;
    Three(s, acts[0], t, acts[1], u, acts[2], v);
  }

  lemma Agrees(cfg: Config) returns (acts: seq<Action>)
    requires cfg.polA == CLIENT && cfg.polB == SERVER
    ensures Run(State(cfg, Client5(), Server5(), [Dead(), Net([ConnectMsg(2, 3)], [], 0, true)]), acts,
                State(cfg, Client6(), Server6(), [Dead(), Net([InSeq(0)], [], 2, true)]))
  {
    hide Exchange, DiscardRequeuedUpTo, NextOutgoing, Decide;
    var s := State(cfg, Client5(), Server5(), [Dead(), Net([ConnectMsg(2, 3)], [], 0, true)]);
    var t := State(cfg, Client5(), Server6(), [Dead(), Net([], [SeqReply(3, 2), InSeq(0)], 1, true)]);
    var u := State(cfg, Client5().(phase := WaitAckSeq(3, 2)), Server6(), [Dead(), Net([], [InSeq(0)], 1, true)]);
    var v := State(cfg, Client6(), Server6(), [Dead(), Net([InSeq(0)], [], 2, true)]);
    acts := [Receive(B), Receive(A), Receive(A)];
    AtServer([ConnectMsg(2, 3)], [], 0, true, [SeqReply(3, 2), InSeq(0)], [], [SeqReply(3, 2), InSeq(0)]);
    Swapped(Dead(), s.wires[1], t.wires[1]);
    assert Step(s, acts[0]) == t;
    AtClient([], [SeqReply(3, 2), InSeq(0)], 1, true, [], [], [InSeq(0)]);
    Swapped(Dead(), t.wires[1], u.wires[1]);
    assert Step(t, acts[1]) == u;
    AtClient([], [InSeq(0)], 1, true, [InSeq(0)], [InSeq(0)], []);
    Swapped(Dead(), u.wires[1], v.wires[1]);
    SessionSteps.NothingToDiscard(Client5().(phase := WaitAckSeq(3, 2)));
    assert Step(u, acts[2]) == v;
    Three(s, acts[0], t, acts[1], u, acts[2], v);
  }

  lemma Replays(cfg: Config) returns (acts: seq<Action>)
    requires cfg.polA == CLIENT && cfg.polB == SERVER
    ensures Run(State(cfg, Client6(), Server6(), [Dead(), Net([InSeq(0)], [], 2, true)]), acts,
                State(cfg, Client7(), Server7(), [Dead(), Net([Data(7, 1)], [], 3, true)]))
  {
    hide Exchange, DiscardRequeuedUpTo, NextOutgoing, Push, Decide;
    var s := State(cfg, Client6(), Server6(), [Dead(), Net([InSeq(0)], [], 2, true)]);
    var ready := Client5().(phase := Phase.Open, connectSeq := 3, peerGlobalSeq := 2);
    var t := State(cfg, ready, Server6(), s.wires);
    var u := State(cfg, ready, Server7(), [Dead(), Net([], [], 3, true)]);
    var v := State(cfg, Client7(), Server7(), [Dead(), Net([Data(7, 1)], [], 3, true)]);
    acts := [Ready(A), Receive(B), Write(A)];
    assert Step(s, acts[0]) == t;
    AtServer([InSeq(0)], [], 2, true, [], [], []);
    Swapped(Dead(), t.wires[1], u.wires[1]);
    SessionSteps.NothingToDiscard(Server6());
    assert Step(t, acts[1]) == u;
    OneMessage(HIGHEST, Msg(7, 1));
    Appends([], [], 3, true, Data(7, 1));
    assert [] + [Data(7, 1)] == [Data(7, 1)] && [] + [Msg(7, 1)] == [Msg(7, 1)];
    Swapped(Dead(), u.wires[1], v.wires[1]);
    assert Step(u, acts[2]) == v;
    Three(s, acts[0], t, acts[1], u, acts[2], v);
  }

  /** From nothing to a message dispatched once, although its first copy was lost with the first socket. */
  lemma LostAndReplayed(cfg: Config) returns (acts: seq<Action>, t: State)
    requires cfg.polA == CLIENT && cfg.polB == SERVER
    ensures Run(Init(cfg), acts, t)
    ensures t.b.dispatched == [7] && t.a.log == [7] && |t.wires| == 2 && !t.wires[0].forward.alive
  {
    hide Run, Enabled, Step;
    var r1 := Connects(cfg);
    var r2 := Accepted(cfg);
    var r3 := Writes(cfg);
    var r4 := Breaks(cfg);
    var r5 := Swaps(cfg);
    var r6 := Agrees(cfg);
    var r7 := Replays(cfg);
    var s1 := State(cfg, Client1(), NO_ENDPOINT, [Net([ConnectMsg(0, 1)], [], 0, false)]);
    var s2 := State(cfg, Client2(), Server2(), [Net([InSeq(0)], [], 2, true)]);
    var s3 := State(cfg, Client3(), Server3(), [Net([Data(7, 1)], [], 3, true)]);
    var s4 := State(cfg, Client4(), Server3(), [Dead(), Net([ConnectMsg(2, 2)], [], 0, false)]);
    var s5 := State(cfg, Client5(), Server5(), [Dead(), Net([ConnectMsg(2, 3)], [], 0, true)]);
    var s6 := State(cfg, Client6(), Server6(), [Dead(), Net([InSeq(0)], [], 2, true)]);
    var s7 := State(cfg, Client7(), Server7(), [Dead(), Net([Data(7, 1)], [], 3, true)]);
    Join(Init(cfg), r1, s1, r2, s2);
    Join(Init(cfg), r1 + r2, s2, r3, s3);
    Join(Init(cfg), r1 + r2 + r3, s3, r4, s4);
    Join(Init(cfg), r1 + r2 + r3 + r4, s4, r5, s5);
    Join(Init(cfg), r1 + r2 + r3 + r4 + r5, s5, r6, s6);
    Join(Init(cfg), r1 + r2 + r3 + r4 + r5 + r6, s6, r7, s7);
    Delivered(s7);
    t := s7.(b := Deliver(s7.b, 7, 1), wires := [Dead(), Net([], [], 3, true)]);
    acts := r1 + r2 + r3 + r4 + r5 + r6 + r7 + [Receive(B)];
    Join(Init(cfg), r1 + r2 + r3 + r4 + r5 + r6 + r7, s7, [Receive(B)], t);
  }

  lemma Delivered(s: State)
    requires s.a == Client7() && s.b == Server7() && s.wires == [Dead(), Net([Data(7, 1)], [], 3, true)]
    ensures Run(s, [Receive(B)], s.(b := Deliver(s.b, 7, 1), wires := [Dead(), Net([], [], 3, true)]))
  {
    assert [Receive(B)][1..] == [];
    AtServer([Data(7, 1)], [], 3, true, [], [], []);
    Swapped(Dead(), s.wires[1], Net([], [], 3, true));
    assert Run(Step(s, Receive(B)), [], Step(s, Receive(B)));
  }
}
