# The RDMA messenger, verified

A Dafny model of three connected parts of the repository, and proofs about them:

- **The lossless messenger session.** A connection numbers its messages, keeps them until they are
  acknowledged, survives sockets that are cut, negotiates a reconnect and replays what the peer has not
  received. `SendQueue`, `Endpoints`, `Connection` and `Negotiation` model one side, first as functions on
  values, then as classes whose loops are proved to compute those functions. `Session` is the two-party
  machine: two endpoints, any number of sockets, cuts of either direction at any packet, faults at any
  moment, crossing attempts, and every answer of the acceptor, also the READY reply after a hard reset and
  the decisions that empty a session. `SessionSafety`, `SessionSteps` and `SessionReady` prove its
  invariant, `SessionTheorems` what follows for every run in which no session is emptied, `SessionFifo` that
  messages of one priority keep their order, and `SessionNumbers` that both ends agree on the numbers of the
  negotiation. `SessionResets` and `SessionFirst` say exactly when a session is emptied, show runs in which
  that loses messages, and prove which runs never meet it. `SessionRoles`, `SessionDrain` and
  `SessionRecovery` prove that everything accepted can still be delivered, acknowledged and released. `SessionExample` exhibits one run with a lost and replayed message. `Race` treats two
  crossing connects, `Standby` the interleaving of senders, faults and the write handler, `Throttle` the
  reservations of a message being read, `ReadUntil` the prefetch buffer over a fragmented socket.
- **The RDMA byte stream over a bounded chunk pool.** `Chunks` is a registered chunk and the transmit pool,
  `SocketTx` is `send` and `submit`, `SocketRx` is `read`, both on arrays; `SocketStream` puts the two
  together over whole runs, and `SocketSteps` shows that each call of the two objects is a step of it.
  `Scheduler`, `SchedulerProgress` and `SchedulerOrder` are the parked senders: several workers and the
  dispatcher as a machine over their steps, its safety, its termination and the order of waking. `RxDispatch` is the receive half of the
  dispatcher.
- **The event loop and the connection table.** `Timers`, `WakeUp` and `Registry`.

`Bytes` and `Wrappers` hold helpers. `dafny verify dfyconfig.toml` verifies the whole project.

## How to read it

Sequence numbers are unbounded naturals. An InfiniBand reliable connection is an ordered, lossless queue of
packets. Each critical section is one step, except where a property is about the gaps between critical
sections (`Standby`, `WakeUp`, `Scheduler`). Results of system calls, grants of throttles, posts to the
hardware, clocks and the behaviour of callbacks are inputs of the steps and methods, so the statements hold
for every choice of them.

Some properties one would expect do not hold. For each there is a run or an input that shows it, and the
condition that decides it:

- A lossless session can lose messages although nobody restarts and only sockets break. A decision
  empties a session if and only if the connect message names a session where there is none, or the policy
  checks for resets and exactly one of the two connect_seq is 0 (`LosingIff`, `ResetsIff`);
  `HastyFaultLosesMessage` and `CutHandshakeLosesMessage` are runs that lose a message that way. It never
  happens without resetcheck if no fault raises connect_seq before the peer has a session
  (`PatientRunsFromNothing`), and under any policy if no side faults before both have been connected once
  (`CalmRunsFromNothing`).
- A message of a priority above CEPH_MSG_PRIO_HIGHEST overtakes replays and takes their numbers
  (`PriorityAboveHighestStealsNumber`; exactly then: `ReplayKeepsNumberIff`).
- The old-message branch puts the reservations and stays in a state that says they are held, so the next
  fault puts them again, unless there was nothing to put (`OldMessageReleasesTwice`). In a session that is
  not reset the branch is never reached (`NoOldNoSkipped`).
- A read of no bytes reports the remote close while bytes are still unread (`EarlyResetExists`); no other
  read does (`ResetComesLast`).
- A failed post loses the bytes it took and the chunks it filled (`Submit`). Workers and dispatcher send
  everything there is to send if and only if not every chunk of the pool has been lost that way
  (`EverythingIsSent`); `FailedPostStrands` is a run that loses them all.
- When the grant of `get_reged_mem` and `make_pending_worker` are not one step, a sender can be stranded
  beside a full pool (`SplitGrantStrands`).
- A connection that is stopped and reaped before it reaches `accept_conn` becomes an entry that nothing
  removes, and lookups hand it out (`StaleEntry`; exactly when: `AcceptConn`).
- Receive buffers that come back through the error path of `polling` do not serve the backlog (exactly
  when: `PollRx`); with a limited pool the receive queue can run dry for good (`ReceiveStarves`).
- WAIT is answered to a peer whose address is not the higher one if and only if the two addresses are
  equal (`AcceptorAsserts`).

Two readings of the source: in the copy loop of `submit` the index of the next chunk is tested before the
chunk is looked up, where the source reads one element past the end first; and the branch of `read` for a
server that is not connected cannot be reached, since `read` has returned before it.

## Model

| member | source | states |
|---|---|---|
| SessionTheorems.DispatchedIsPrefix | hardware_async/rdma/backed_RDMAReliableConnected.cc:718-759 | In every state of every run that resets no session, what a side has dispatched is the first in_seq messages of the order in which its peer first wrote them: no gap, duplicate or reordering across cuts, faults and reconnects |
| SessionTheorems.ExactlyOnce | hardware_async/rdma/backed_RDMAReliableConnected.cc:1966-2001 | In every such run a message accepted once is dispatched at most once, and until the peer has dispatched it the sender holds exactly one reference to it, in out_q or sent |
| SessionFifo.FifoPerPriority | hardware_async/rdma/backed_RDMAReliableConnected.cc:1952-1962 | In every run from nothing without a reset, the messages sent with one priority are those written with it, in the same order, followed by those that wait in its list; cuts, requeues and replays change nothing of that |
| SessionFifo.EarlierFirst | hardware_async/rdma/RDMAReliableConnected.h:173-191 | Of two messages sent with one priority the earlier comes first in the order of writing and is dispatched first by the peer |
| SessionTheorems.AckReleases | hardware_async/rdma/backed_RDMAReliableConnected.cc:2335-2348 | In every reachable state, reading an acknowledgement of n leaves finished as the first-write order up to n, within what is written and unacknowledged; exactly those references are gone, every later message stays, and the peer never acknowledges more than was written |
| SessionTheorems.NoOldNoSkipped | hardware_async/rdma/backed_RDMAReliableConnected.cc:718-734 | Every data packet read in such a run carries in_seq + 1: the old-message and skipped-message branches are never taken |
| SessionTheorems.WindowAlways | hardware_async/rdma/backed_RDMAReliableConnected.cc:1966-2001 | In every state of such a run sent is a run of consecutive numbers ending at out_seq, replays precede everything new, sent is empty during any handshake, and what was released is the front of the first-write order |
| SessionTheorems.ConnectSeqAsserts | hardware_async/rdma/backed_RDMAReliableConnected.cc:1154-1162 | The asserts on connect_seq of the connecting side never fail: RETRY_SESSION raises it and the final reply, SEQ or READY, names its successor |
| SessionNumbers.OpenPairAgrees | hardware_async/rdma/backed_RDMAReliableConnected.cc:1154-1162 | In every reachable state both ends of an open session have one connect_seq, the acceptor holds the global number of the connector's last connect message, and the connector the one the acceptor drew |
| SessionNumbers.PeerNumberRises | hardware_async/rdma/backed_RDMAReliableConnected.cc:1551-1558 | The global number a session has accepted from its peer never falls, and rises strictly whenever the session is opened again from either end |
| SessionNumbers.AttemptIsNewest | hardware_async/HwMessenger.h:460-468 | A new attempt carries a number above everything its side has on any socket and above what the peer has accepted, so RETRY_GLOBAL answers it only while the peer is replacing its socket |
| SessionNumbers.RetryIsFollowed | hardware_async/rdma/backed_RDMAReliableConnected.cc:1410-1434 | What the connector does with RETRY_GLOBAL, RETRY_SESSION and WAIT: a number above the one asked for and above all its own, the higher connect_seq, the next connect message with both; or nothing but waiting |
| SessionNumbers.ReadyIffPeerIsNew | hardware_async/rdma/backed_RDMAReliableConnected.cc:1771-1795 | A session opens again with READY and in_seq 0 if and only if its peer starts at connect_seq 0 and it does not; otherwise with SEQ and the number of the last message it has received |
| SessionNumbers.StepKeepsNumbers | hardware_async/rdma/backed_RDMAReliableConnected.cc:842-1380 | Every step that empties no session keeps the invariant of the numbers behind these |
| SessionTheorems.AcceptorAssertsHold | hardware_async/rdma/backed_RDMAReliableConnected.cc:1626-1633 | The acceptor's asserts hold between different addresses: who is told to wait has the higher address, and a message past all comparisons is newer in both numbers |
| SessionTheorems.NoUnexpectedPacket | hardware_async/rdma/backed_RDMAReliableConnected.cc:842-1380 | A session that reads never finds a packet its state cannot interpret, with READY and RESETSESSION among the packets |
| SessionTheorems.NothingIsHeldBack | hardware_async/rdma/backed_RDMAReliableConnected.cc:842-1380 | In every reachable state nothing the environment or a side may do is held back by the model: sends, faults, losses of any suffix, attempts, writes, acknowledgements, the end of a swap and the answer to any connect message are possible |
| SessionTheorems.StepKeepsInv | hardware_async/rdma/backed_RDMAReliableConnected.cc:842-1380 | Every step of either side, of the acceptor and of a cut keeps the two-party invariant, unless it empties a session |
| SessionTheorems.StepKeepsHard | hardware_async/rdma/backed_RDMAReliableConnected.cc:1575-1582 | So does it keep the invariant of a claimed hard reset: the peer that claims one has exchanged nothing yet |
| SessionTheorems.RunKeepsInv | hardware_async/rdma/backed_RDMAReliableConnected.cc:842-1380 | Every run without such a step keeps both |
| SessionReady.HardResetIsByNewPeer | hardware_async/rdma/backed_RDMAReliableConnected.cc:1575-1582 | A connector whose message is taken for a hard reset has written and received nothing |
| SessionSteps.OpenReadyFits | hardware_async/rdma/backed_RDMAReliableConnected.cc:1779-1788 | Opening with READY, in_seq back at 0 and nothing discarded but what the peer has, keeps the invariant of both directions |
| SessionSteps.ConnectorTakesReadyFits | hardware_async/rdma/backed_RDMAReliableConnected.cc:1447-1450 | The connector's side of READY keeps it too, with data of the acceptor already under way |
| SessionResets.LosingIff | hardware_async/rdma/backed_RDMAReliableConnected.cc:1513-1652 | A connect message empties a session if and only if it names a session where none is, or it is recent, the policy checks for resets and exactly one of the two connect_seq is 0 |
| SessionResets.ResetsIff | hardware_async/rdma/backed_RDMAReliableConnected.cc:1513-1652 | The same as a condition on the acceptor's session and the packet it reads, on the machine |
| SessionResets.PatientRunsFromNothing | hardware_async/rdma/backed_RDMAReliableConnected.cc:2088-2098 | Without resetcheck no run empties a session unless a fault raises connect_seq while the peer has no session |
| SessionFirst.CalmRunsFromNothing | hardware_async/rdma/backed_RDMAReliableConnected.cc:1545-1582 | Under any policy no run empties a session if no side faults before both have been connected once: late messages of a first session are older than the number their reader remembers |
| SessionResets.ResetLosesWhatIsHeld | hardware_async/rdma/backed_RDMAReliableConnected.cc:2122-2146 | A reset releases every reference and finishes nothing, so the books of accepted messages balance afterwards if and only if none was held |
| SessionResets.HastyFaultLosesMessage | hardware_async/rdma/backed_RDMAReliableConnected.cc:2088-2098 | A run in which a client's own fault before its first connect message is out makes a lossless session lose a message, without resetcheck |
| SessionResets.CutHandshakeLosesMessage | hardware_async/rdma/backed_RDMAReliableConnected.cc:1575-1582 | A run in which a break of the first handshake makes a server that checks for resets drop what it had queued |
| SessionDrain.OpenSessionDrains | hardware_async/rdma/backed_RDMAReliableConnected.cc:2436-2524 | From every state with both sides open on a working socket, writes and reads alone dispatch every accepted message, in the order of the first writes |
| SessionDrain.AcknowledgementsArrive | hardware_async/rdma/backed_RDMAReliableConnected.cc:2478-2491 | Once the peer has dispatched everything, its acknowledgements reach the sender, which then holds nothing: queue and sent are empty, no reference is left and finished is the whole first-write order |
| SessionDrain.OpenSessionSettles | hardware_async/rdma/backed_RDMAReliableConnected.cc:2436-2524 | From every state with both sides open on a socket that works both ways, writes, reads and acknowledgements alone deliver, acknowledge and release every accepted message |
| SessionRoles.StepKeepsRoles | hardware_async/rdma/backed_RDMAReliableConnected.cc:842-1380 | Every step that empties no session keeps who connects and who is known: servers open no socket, a session on which something was opened has a number on both sides, an open connection is once_ready |
| SessionRoles.WakeIsHandleWrite | hardware_async/rdma/backed_RDMAReliableConnected.cc:2498-2501 | The machine's wake-up of a client in standby is what handle_write does to it, and it ends in connecting |
| SessionRoles.OwnNumberAgain | hardware_async/rdma/backed_RDMAReliableConnected.cc:1594-1624 | A session that is asked for with its own connect_seq answers RETRY_SESSION in standby and open between two messages; in the middle of one, and while connecting, the addresses and the server policy decide between taking the socket and WAIT |
| SessionRecovery.Negotiates | hardware_async/rdma/backed_RDMAReliableConnected.cc:1381-1652 | On a new socket a client reaches the opening of its server's first session, or the replacement of the one it has, after at most two retries |
| SessionRecovery.Reconnects | hardware_async/rdma/backed_RDMAReliableConnected.cc:842-1380 | Whatever sockets broke, a client and its server can be open on one working socket, for the first time or again, by SEQ or by READY, unless the server's answer would reset a session |
| SessionRecovery.EverythingArrives | hardware_async/rdma/backed_RDMAReliableConnected.cc:842-1380 | From every reachable state in which the server will not answer the client's number with a reset, some continuation without a reset and without a new message opens both, dispatches every message either side has accepted, as often as it was accepted and in the order of the first writes, and has both senders release everything |
| SessionSteps.ReceiveDataFits | hardware_async/rdma/backed_RDMAReliableConnected.cc:718-759 | Reading a data packet keeps the invariant of both directions and the packet is the next one |
| SessionSteps.ConnectorReadsSeqFits | hardware_async/rdma/backed_RDMAReliableConnected.cc:1111-1152 | The connecting side's half of the number exchange drops exactly what the peer has and keeps the invariant |
| SessionSteps.AcceptorReadsSeqFits | hardware_async/rdma/backed_RDMAReliableConnected.cc:1324-1340 | The accepting side's half does the same |
| SessionSteps.AdoptFits | hardware_async/rdma/backed_RDMAReliableConnected.cc:1697-1760 | Swapping a new socket under an existing session keeps the invariant |
| SessionSteps.CutKeepsInv | hardware_async/rdma/backed_RDMAReliableConnected.cc:159-180 | Losing any suffix of one direction of any socket keeps the invariant |
| SessionSafety.BreakKeepsInv | hardware_async/rdma/backed_RDMAReliableConnected.cc:2042-2119 | A fault in any phase keeps the invariant |
| SessionSafety.ReceiveAckFits | hardware_async/rdma/backed_RDMAReliableConnected.cc:2335-2348 | Reading an acknowledgement, which takes the acknowledged front off sent and releases it, keeps the invariant of both directions (what exactly is released: AckReleases) |
| SessionExample.LostAndReplayed | hardware_async/rdma/backed_RDMAReliableConnected.cc:842-1380 | There is a run from nothing in which a written packet is lost with its socket, is replayed on the next one, and is dispatched once |
| SendQueue.WriteKeepsWindow | hardware_async/rdma/backed_RDMAReliableConnected.cc:2193-2197 | A replayed message gets the number it had, a new one the next unused number, and the sender window is kept |
| SendQueue.RequeueKeepsWindow | hardware_async/rdma/backed_RDMAReliableConnected.cc:1966-1980 | Putting sent back keeps the window with sent empty and out_seq lowered by its length |
| SendQueue.DiscardKeepsWindow | hardware_async/rdma/backed_RDMAReliableConnected.cc:1982-2001 | Dropping up to the peer's number moves out_seq exactly there and keeps the window |
| SendQueue.AckKeepsWindow | hardware_async/rdma/backed_RDMAReliableConnected.cc:2335-2348 | Trimming sent moves its front to the acknowledged number, within its bounds |
| SendQueue.EnqueueKeepsWindow | hardware_async/rdma/backed_RDMAReliableConnected.cc:1952-1962 | A message queued at any moment, also between a requeue and its replay, leaves the window intact if its priority is not above the highest (that it goes behind its elders: SendMessageHolds, FifoPerPriority) |
| SendQueue.ReplayKeepsNumberIff | hardware_async/rdma/RDMAReliableConnected.h:173-191 | The next message written is the replay due, under its old number, if and only if no higher priority is queued |
| SendQueue.PriorityAboveHighestStealsNumber | hardware_async/rdma/RDMAReliableConnected.h:173-191 | A queue in which a message above the highest priority takes a replay's number |
| SendQueue.HighestFirst | hardware_async/rdma/RDMAReliableConnected.h:173-191 | The message taken is the oldest of the highest priority that has one, and every other list stays as it was |
| SendQueue.NextOutgoingConserves | hardware_async/rdma/RDMAReliableConnected.h:173-191 | Taking a message takes exactly that one; nothing comes out only if nothing is in |
| Endpoints.OnePlace | hardware_async/rdma/backed_RDMAReliableConnected.cc:2007-2022 | While the session lives, an accepted message is in exactly one of out_q, sent and finished, and its references match |
| Endpoints.SendMessageHolds | hardware_async/rdma/backed_RDMAReliableConnected.cc:1952-1962 | A message goes to the end of its priority's list and is held once more; on a closed connection nothing happens |
| Endpoints.FaultLeads | hardware_async/rdma/backed_RDMAReliableConnected.cc:2042-2119 | Where a fault leads, read off the connection alone: a client with anything queued or unacknowledged reconnects, standby needs the policy and nothing held or a server that was not connecting, only an idle half-accepted connection closes, and connect_seq rises by one exactly if the reconnect does not come from connecting |
| Endpoints.NotWritableLeads | hardware_async/rdma/backed_RDMAReliableConnected.cc:2492-2516 | A client in standby with something queued starts to connect; a failed flush is a fault for any other connection that has a socket and is not closed, being replaced or starting to connect; nothing else happens |
| Endpoints.StopReleasesAll | hardware_async/rdma/backed_RDMAReliableConnected.cc:2148-2171 | Stopping gives back the reference of every queued or sent message and does nothing the second time |
| Endpoints.FaultKeepsOwned | hardware_async/rdma/backed_RDMAReliableConnected.cc:2042-2087 | A fault moves messages but releases none, unless it closes a connection that holds none |
| Endpoints.HandleAckKeepsOwned | hardware_async/rdma/backed_RDMAReliableConnected.cc:2335-2348 | An acknowledgement releases one reference per message it finishes |
| Endpoints.DiscardKeepsOwned | hardware_async/rdma/backed_RDMAReliableConnected.cc:1982-2001 | So does the discard in the handshake |
| Connections.Connection.GetNextOutgoing | hardware_async/rdma/RDMAReliableConnected.h:173-191 | The walk over the priorities returns the front of the highest non-empty list and removes it |
| Connections.Connection.RequeueSent | hardware_async/rdma/backed_RDMAReliableConnected.cc:1966-1980 | The loop from the back of sent puts it, in order, before the highest list |
| Connections.Connection.DiscardRequeuedUpTo | hardware_async/rdma/backed_RDMAReliableConnected.cc:1982-2001 | The loop drops exactly the numbered messages up to seq and raises out_seq by their count |
| Connections.Connection.HandleAck | hardware_async/rdma/backed_RDMAReliableConnected.cc:2335-2348 | The loop drops exactly the acknowledged front of sent |
| Connections.Connection.WriteQueued | hardware_async/rdma/backed_RDMAReliableConnected.cc:2451-2477 | The write loop emits consecutive numbers; it goes on past a send exactly if that went through, left the socket room, can_write stays and something is queued; it reports failure if and only if its last send failed |
| Connections.Connection.HandleWrite | hardware_async/rdma/backed_RDMAReliableConnected.cc:2436-2524 | While writing is allowed: messages first, then one acknowledgement of everything received if one is due; the connection faults if and only if a message's send failed, or the last send was due and failed. Otherwise: a client with something queued leaves standby, any other connection with a socket flushes or faults |
| Connections.Connection.DeliverMessage | hardware_async/rdma/backed_RDMAReliableConnected.cc:718-759 | A message is dispatched and counted exactly if its number is above in_seq |
| Connections.Connection.Fault | hardware_async/rdma/backed_RDMAReliableConnected.cc:2042-2119 | The branches of fault in the code's own form, equal to the function whose outcome FaultLeads says: requeue, close, standby, reconnect with or without a new connect_seq |
| Connections.Connection.WasSessionReset | hardware_async/rdma/backed_RDMAReliableConnected.cc:2122-2146 | Everything queued and sent is released and every number starts again |
| Connections.Connection.OpenSession | hardware_async/rdma/backed_RDMAReliableConnected.cc:1771-1817 | The reply is READY with in_seq back at 0 after a hard reset, and SEQ with in_seq otherwise; the connection is the machine's opened session |
| Connections.BurstFollowsLog | hardware_async/rdma/backed_RDMAReliableConnected.cc:2451-2477 | A burst of n writes keeps the window, appends the next n messages of the first-write order to sent, and adds nothing to that order while it only replays |
| Negotiation.DecisionIff | hardware_async/rdma/backed_RDMAReliableConnected.cc:1513-1646 | Each answer to a lossless session if and only if its condition: too old or being replaced, hard reset, an older or equal connect_seq, the lost race, a session that the acceptor does not know; an older attempt is never adopted unless it starts at 0 |
| Negotiation.RetryDecreases | hardware_async/rdma/backed_RDMAReliableConnected.cc:1513-1646 | Each of RETRY_GLOBAL, RETRY_SESSION and RESETSESSION lowers a measure of at most two |
| Negotiation.RetryKeepsFinalDecision | hardware_async/rdma/backed_RDMAReliableConnected.cc:1513-1646 | No retry changes where the negotiation ends, which the first connect_seq decides |
| Negotiation.RetrySessionRaises | hardware_async/rdma/backed_RDMAReliableConnected.cc:1422-1429 | The assert on RETRY_SESSION never fails |
| Negotiation.AcceptorAsserts | hardware_async/rdma/backed_RDMAReliableConnected.cc:1626-1633 | The assert on WAIT fails exactly for equal addresses; a message that passes every comparison has the higher connect_seq and no older global_seq |
| Negotiation.ConnectorConn.GetGlobalSeq | hardware_async/HwMessenger.h:460-468 | The number handed out is above all earlier ones and above the one asked for |
| Negotiation.ConnectorConn.Negotiate | hardware_async/rdma/backed_RDMAReliableConnected.cc:1381-1456 | Against a fixed session at most three connect messages are sent, four with a refused authorizer, and the outcome is the one the first connect_seq decides |
| Race.OneAttemptWins | hardware_async/rdma/backed_RDMAReliableConnected.cc:1594-1630 | In every interleaving of two crossing connects only the attempt of the lower address is adopted, at most once; the other is told to wait, or, handled late, gets a retry on a socket its sender has given up |
| Race.RaceEndsOpen | hardware_async/rdma/backed_RDMAReliableConnected.cc:1771-1795 | The race is over after exactly four steps of the lower side, none of which can be blocked; then exactly one attempt was adopted and both ends are open with the same connect_seq |
| Race.LoAdvances | hardware_async/rdma/backed_RDMAReliableConnected.cc:1594-1630 | Until then the lower side can always take its next step, and nothing the higher side does sets it back |
| Race.TryingAgainChangesNothing | hardware_async/rdma/backed_RDMAReliableConnected.cc:1594-1630 | The side that was told to wait may try again with a newer number, and as long as it can it is told to wait again |
| Race.LateAttemptWouldReset | hardware_async/rdma/backed_RDMAReliableConnected.cc:1545-1575 | A late attempt of a first session would replace the open one exactly if its global number were not older |
| Standby.NoClientWaitsInStandby | hardware_async/rdma/backed_RDMAReliableConnected.cc:2498-2504 | In every interleaving a non-server connection in standby with something queued has a write event outstanding or a handler past it, and at most three steps of the handler reconnect, whatever is sent meanwhile |
| Standby.NoMessageForgotten | hardware_async/rdma/backed_RDMAReliableConnected.cc:1952-1962 | On an open connection a queued message always has a write event, a writable socket or a running handler, also if it was queued during a replacement |
| Standby.ServerWaitsInStandby | hardware_async/rdma/backed_RDMAReliableConnected.cc:2092-2096 | A server can stay in standby with messages queued |
| Standby.MessagesCounted | hardware_async/rdma/backed_RDMAReliableConnected.cc:1943-2022 | No step of this race loses or invents a message: only a send adds one, an acknowledgement takes off what it names, closing drops all, and everything else moves messages between queue and sent |
| Throttle.RunKeepsBalance | hardware_async/rdma/backed_RDMAReliableConnected.cc:482-547 | In every run without an old message the throttles count exactly what the place in the state order implies plus what dispatched messages carry; after any fault, stop or replacement only the latter |
| Throttle.DispatchCarriesAll | hardware_async/rdma/backed_RDMAReliableConnected.cc:702-707 | A dispatched message takes along exactly what was held for it |
| Throttle.RequestIff | hardware_async/rdma/backed_RDMAReliableConnected.cc:482-547 | A refused request leaves the state and every count; any other moves on one state, and the counts grow by exactly what it asks for |
| Throttle.FaultEnds | hardware_async/rdma/backed_RDMAReliableConnected.cc:2042-2119 | Where a fault leads in the state order: closed exactly for a lossy connection that is not connecting and an idle half-accepted one, else standby or connecting as policy, queue and old state say |
| Throttle.OldMessageReleasesTwice | hardware_async/rdma/backed_RDMAReliableConnected.cc:718-729 | After the old-message branch and the next fault, stop or replacement the throttles are short by one message and its bytes; the balance survives the branch if and only if there was nothing to put |
| Throttle.LeavingReleasesOnce | hardware_async/rdma/backed_RDMAReliableConnected.cc:2042-2171 | Every path through fault, _stop and a replacement releases exactly what is held, and whichever of them comes next finds nothing more to release |
| Throttle.ResetTwiceIff | hardware_async/rdma/backed_RDMAReliableConnected.cc:2296-2333 | Releasing twice before the state has moved keeps the balance if and only if nothing was held |
| Throttle.Receiver.ResetRecvState | hardware_async/rdma/backed_RDMAReliableConnected.cc:2296-2333 | The conditional releases release exactly what is held and leave the state alone |
| Throttle.Receiver.Fault | hardware_async/rdma/backed_RDMAReliableConnected.cc:2042-2119 | The early return, the two branches into _stop and the reconnect: afterwards only dispatched messages hold reservations |
| Throttle.Receiver.Stop | hardware_async/rdma/backed_RDMAReliableConnected.cc:2148-2171 | The same for _stop, which does nothing the second time |
| Throttle.Receiver.Replace | hardware_async/rdma/backed_RDMAReliableConnected.cc:1662-1704 | The same for the connection whose socket is replaced, lossy or not |
| Throttle.Receiver.DispatchMessage | hardware_async/rdma/backed_RDMAReliableConnected.cc:693-760 | The message takes the reservations along and the state leaves the reading states; an old message is put and the state stays |
| Throttle.Receiver.WantBytes | hardware_async/rdma/backed_RDMAReliableConnected.cc:504-527 | The byte throttle state reserves the message's size or leaves the state |
| ReadUntil.Reader.ReadUntil | hardware_async/rdma/backed_RDMAReliableConnected.cc:227-297 | What the caller holds, the prefetch buffer and the socket's future bytes together never change; 0 means the next len bytes are in p, a positive result is what is missing and then nothing is buffered |
| ReadUntil.Reader.Refill | hardware_async/rdma/backed_RDMAReliableConnected.cc:267-287 | The prefetch loop stays inside twice recv_max_prefetch and keeps the stream in order |
| ReadUntil.Reader.ReadAll | hardware_async/rdma/backed_RDMAReliableConnected.cc:219-297 | Any sequence of reads, each retried with its length and buffer, cuts the stream into pieces of exactly those lengths for every fragmentation |
| Chunks.Chunk.Write | hardware_async/rdma/Infiniband.cc:529-541 | Appends as much as fits and says how much |
| Chunks.Chunk.Read | hardware_async/rdma/Infiniband.cc:514-527 | Copies out the next bytes, at most what is unread, and removes exactly those |
| Chunks.Cluster.Fill | hardware_async/rdma/Infiniband.cc:577-598 | Makes exactly the wanted number of blank chunks |
| Chunks.Cluster.GetBuffers | hardware_async/rdma/Infiniband.cc:609-634 | Hands out the needed number of chunks, or what is left, blank, distinct and lent to nobody else; free and lent chunks partition the pool |
| Chunks.Cluster.TakeBack | hardware_async/rdma/Infiniband.cc:600-607 | Returned chunks are blank and free again, once |
| Chunks.BackHalf | hardware_async/rdma/Infiniband.cc:629-632 | Popping from the back splits the free list |
| SocketTx.CopyIntoChunks | hardware_async/rdma/RDMAReliableConnectedSocketImpl.cc:567-599 | The nested copy loops put exactly the first min(length, capacity) bytes of the list into the chunks, in order, every chunk full but perhaps the last and none empty |
| SocketTx.LastChunkInUse | hardware_async/rdma/RDMAReliableConnectedSocketImpl.cc:567-599 | A grant that is not larger than needed leaves no chunk unused |
| SocketTx.Worker.GetRegedMem | hardware_async/rdma/RDMAStack.cc:503-523 | A grant; a socket that gets too little is parked once and its worker waits |
| SocketTx.Worker.PostTxBuffer | hardware_async/rdma/RDMAStack.cc:416-426 | Completed chunks go back, inflight falls by their number, and a worker is to be notified if and only if there were any |
| SocketTx.Socket.Submit | hardware_async/rdma/RDMAReliableConnectedSocketImpl.cc:556-650 | Sends exactly the first min(pending, granted chunks * chunk size) bytes and keeps exactly the rest; the result code, the parking and the loss on a failed post |
| SocketTx.Socket.PostWorkRequest | hardware_async/rdma/RDMAReliableConnectedSocketImpl.cc:653-703 | One packet per chunk, of what was written to it, in order; nothing on failure |
| SocketTx.Socket.Send | hardware_async/rdma/RDMAReliableConnectedSocketImpl.cc:530-553 | All bytes are accepted in order, before and after the handshake; before it nothing is posted; a broken socket accepts nothing |
| SocketTx.Socket.HandshakeDone | hardware_async/rdma/RDMAReliableConnectedSocketImpl.cc:201-206 | Bytes accepted before the handshake go out after it, in order |
| SocketRx.DrainChunks | hardware_async/rdma/RDMAReliableConnectedSocketImpl.cc:383-405 | Reading from stored chunks returns the next bytes and hands back exactly the chunks used up |
| SocketRx.AbsorbAll | hardware_async/rdma/RDMAReliableConnectedSocketImpl.cc:341-365 | New completions continue the stream in order; every chunk ends up stored or handed back, once |
| SocketRx.RxSocket.Read | hardware_async/rdma/RDMAReliableConnectedSocketImpl.cc:301-381 | A FIFO byte stream for any lengths; stored chunks are never empty, each chunk is returned once and only when read to its end, and a negative result leaves bytes unread if and only if none were asked for |
| SocketRx.RxSocket.PassWc | hardware_async/rdma/RDMAReliableConnectedSocketImpl.cc:94-109 | Completions are appended in order and the socket becomes readable |
| SocketStream.StreamIsConserved | hardware_async/rdma/RDMAReliableConnectedSocketImpl.cc:556-638 | After every run the accepted bytes are those returned, then the unread chunks and completions, then the posted packets, then the pending list; free and in-flight chunks make up the pool |
| SocketStream.ResetComesLast | hardware_async/rdma/RDMAReliableConnectedSocketImpl.cc:345-353 | A read of at least one byte reports the remote close only after every byte that was posted has been returned |
| SocketSteps.SendIsAStep | hardware_async/rdma/RDMAReliableConnectedSocketImpl.cc:530-553 | A call of send takes the object from one state of the stream machine to the next, with the packets it put on the wire |
| SocketSteps.RetryIsAStep | hardware_async/rdma/RDMAReliableConnectedSocketImpl.cc:556-650 | So does submit when chunks are free again |
| SocketSteps.HandshakeIsAStep | hardware_async/rdma/RDMAReliableConnectedSocketImpl.cc:201-206 | So does the end of the handshake |
| SocketSteps.TxDoneIsAStep | hardware_async/rdma/RDMAStack.cc:416-426 | So does the return of completed chunks |
| SocketSteps.ReadIsAStep | hardware_async/rdma/RDMAReliableConnectedSocketImpl.cc:301-381 | A call of read gives the bytes the machine's read gives, and the reset error exactly when the machine reports it |
| SocketSteps.LandIsAStep | hardware_async/rdma/RDMAReliableConnectedSocketImpl.cc:94-109 | A completion that carries the next posted packet is the machine's landing step |
| SocketStream.EarlyResetExists | hardware_async/rdma/RDMAReliableConnectedSocketImpl.cc:378-381 | A run after which a read of no bytes reports the close with a byte unread |
| Scheduler.StepKeepsInv | hardware_async/rdma/RDMAStack.cc:503-546 | Every step of senders, workers, dispatcher and faults keeps the invariant of the parked senders |
| Scheduler.HandKeepsInv | hardware_async/rdma/RDMAStack.cc:526-546 | In particular the retry in the handler, whether it succeeds, stays short or fails |
| Scheduler.WakeKeepsInv | hardware_async/rdma/RDMAStack.cc:300-314 | Waking the first waiting worker makes it active, which is what the others wait for |
| Scheduler.SubmitIsTheSockets | hardware_async/rdma/RDMAReliableConnectedSocketImpl.cc:556-650 | In lengths the machine's submit is the socket's own: one chunk for each packet, and what stays unsent is what the packets do not hold |
| Scheduler.SendIsTheSockets | hardware_async/rdma/RDMAReliableConnectedSocketImpl.cc:530-553 | A send joins the pending bytes and submits them on a connected socket; before the end of the handshake it only keeps them, and that end submits them all |
| Scheduler.BrokenStaysBroken | hardware_async/rdma/RDMAReliableConnectedSocketImpl.cc:766-776 | A fault makes a socket unusable, and no step repairs it or sends another byte of it |
| SchedulerOrder.WokenInOrder | hardware_async/rdma/RDMAStack.cc:300-314 | Over every run the workers listed are the workers woken, in the same order, followed by those that still wait; nobody waits twice |
| SchedulerOrder.StepKeepsOrder | hardware_async/rdma/RDMAStack.h:103-110 | In one step the list gives up its head, which is who is woken, or takes one worker at its end |
| Scheduler.Dispatcher.MakePendingWorker | hardware_async/rdma/RDMAStack.h:103-110 | A worker is listed once |
| Scheduler.Dispatcher.NotifyPendingWorkers | hardware_async/rdma/RDMAStack.cc:300-314 | The worker that has waited longest is taken, if any |
| SchedulerProgress.NoStrandedSender | hardware_async/rdma/RDMAStack.cc:503-546 | In every run a usable socket with unsent bytes is with its worker exactly once, that worker is at it, notified or listed, and while it is listed something under way will wake a worker, unless failed posts have leaked the whole pool |
| SchedulerProgress.EverythingIsSent | hardware_async/rdma/RDMAStack.cc:526-546 | From every reachable state, in every order of the internal steps, the workers and the dispatcher come to rest; every usable socket has sent all its bytes at some time if and only if there was nothing to send or failed posts had not leaked the whole pool |
| SchedulerProgress.LeakedNeverSends | hardware_async/rdma/RDMAStack.cc:503-546 | Once the whole pool has leaked, no schedule of internal steps ever sends another byte |
| SchedulerProgress.FailedPostStrands | hardware_async/rdma/RDMAReliableConnectedSocketImpl.cc:600-650 | A run from nothing in which a failed post takes the only chunk and a later send is stranded |
| SchedulerProgress.InternalShrinks | hardware_async/rdma/RDMAStack.cc:300-546 | Every internal step lowers a lexicographic measure |
| SchedulerProgress.QuietIffStuck | hardware_async/rdma/RDMAStack.cc:300-546 | At rest means that no internal step is possible |
| SchedulerProgress.SplitGrantStrands | hardware_async/rdma/RDMAStack.cc:506-520 | From a state that a run reaches: with the grant and the listing of the worker apart, a sender is stranded beside a free pool |
| RxDispatch.RDMADispatcher.PollRx | hardware_async/rdma/RDMAStack.cc:198-237 | A successful completion of a registered, live queue pair goes to that pair's socket, each socket's completions in their order; every other buffer goes back to the pool; the sockets that fault are the connected ones of live pairs with a failed completion; no buffer is lost, the backlog is what the queue is short of, and buffers lie idle beside it if and only if some went back this way |
| RxDispatch.RDMADispatcher.PostChunkToPool | hardware_async/rdma/RDMAStack.cc:160-170 | A buffer that a socket returns serves the backlog at once, together with whatever lies in the pool, so that no buffer is idle afterwards |
| RxDispatch.RDMADispatcher.PostChunksToSrq | hardware_async/rdma/Infiniband.cc:987-1025 | Posts as many buffers as asked for or as there are |
| RxDispatch.RoutingPartitions | hardware_async/rdma/RDMAStack.cc:205-232 | Every completed buffer goes to a socket or back, not both |
| RxDispatch.ReceiveStarves | hardware_async/rdma/RDMAStack.cc:214-232 | The receive queue can run dry with every buffer free and none held, and however often it is polled it stays so |
| RxDispatch.RDMADispatcher.EraseQpnLockless | hardware_async/rdma/RDMAStack.cc:337-346 | The pair leaves the table and is kept for deletion; the counters agree with the tables |
| Timers.TimeEvents.CreateTimeEvent | hardware_async/Event.cc:283-298 | A new timer under an id never used before, in both structures |
| Timers.TimeEvents.DeleteTimeEvent | hardware_async/Event.cc:300-315 | Removes exactly that timer from both structures; unknown ids change nothing |
| Timers.TimeEvents.RunCallback | hardware_async/Event.cc:283-315 | After a callback exactly those timers are there that were there and it did not delete, or that it created and did not delete later, each under the next unused id |
| Timers.TimeEvents.ProcessTimeEvents | hardware_async/Event.cc:335-358 | With callbacks that create and delete timers: each time the earliest timer pending at that moment fires, if it is due, and at most once ever; afterwards exactly those are left that were pending or created, not deleted and not fired, and nothing due is left |
| Timers.WaitNeverTooLong | hardware_async/Event.cc:368-393 | A blocking wait ends no later than the earliest timer expires, by less than a microsecond early |
| Timers.InsertKeeps | hardware_async/Event.cc:283-298 | Insertion keeps the order and the distinctness of ids |
| WakeUp.NoLostWakeUp | hardware_async/Event.cc:427-460 | In every interleaving the counter is the queue's length outside the lock, callbacks run once in the order queued, and a loop that sleeps with an empty pipe and no producer in the call has run everything |
| WakeUp.WakesOnce | hardware_async/Event.cc:452-460 | In the interleaved machine a producer writes a byte if and only if its event found the queue empty and the loop can sleep |
| WakeUp.LoopRunsEverything | hardware_async/Event.cc:361-440 | However the waits end, once the loop has taken a bounded number of its own steps with nobody queueing, every event ever queued has been run, in order |
| WakeUp.LoopCanGoOn | hardware_async/Event.cc:361-440 | Until then it always has a next step that does not need its wait to time out |
| WakeUp.SleepsOnlyWhenIdle | hardware_async/Event.cc:361-380 | It blocks if and only if nothing is queued and there are no pollers |
| WakeUp.StepKeepsInv | hardware_async/Event.cc:317-333 | Each step of a producer or the loop keeps the wake-up invariant |
| WakeUp.ExternalEvents.DispatchEventExternal | hardware_async/Event.cc:452-460 | One pipe byte, and only for the event that finds the queue empty, from another thread |
| WakeUp.ExternalEvents.ProcessExternal | hardware_async/Event.cc:427-440 | The swapped queue runs in order; what its callbacks queue waits for the next pass |
| Registry.HwMessenger.LookupConn | hardware_async/HwMessenger.h:366-381 | Never returns a connection that has unregistered, and removes only such an entry |
| Registry.HwMessenger.AcceptConn | hardware_async/HwMessenger.h:410-430 | Refuses if and only if a different live connection holds the address; keeps the table's invariant if and only if the connection is alive, or is waiting to be reaped and not yet in the table |
| Registry.HwMessenger.UnregisterConn | hardware_async/HwMessenger.h:490-497 | Queues the connection, and the reaper from five on |
| Registry.HwMessenger.ReapDead | hardware_async/HwMessenger.cc:785-806 | Purges every dead connection and keeps every live one, also at a dead one's address |
| Registry.HwMessenger.GetConnection | hardware_async/HwMessenger.cc:581-598 | Returns the loopback connection for the own address, else the live connection of the address, or registers a new one |
| Registry.HwMessenger.ShutdownConnections | hardware_async/HwMessenger.cc:697-728 | Closes every connection known and empties the tables |
| Registry.StaleEntry | hardware_async/HwMessenger.h:410-430 | A connection stopped and reaped before accept_conn is found by lookups although dead |

## Left out

- Runs in which a session is emptied are runs of `Session`, but the theorems of `SessionTheorems` are about runs without such a step; of the others `SessionResets` says when they happen and what they lose.
- `was_session_reset` also drops messages that were received and wait in the dispatch queue, and may start out_seq at a random number; here `dispatched` is what was given to the dispatch queue and out_seq starts at 0.
- SessionRecovery.EverythingArrives: for a client without the standby policy and its server; a server in standby cannot deliver on its own (`Standby.ServerWaitsInStandby`). The states it leaves out are those in which only one side's connect_seq is 0 and the server is the one that has none or checks for resets: there the next answer empties a session (`ResetsIff`), and `HastyFaultLosesMessage` and `CutHandshakeLosesMessage` are runs into them.
- Lossy connections, `mark_down` and the loopback connection are not steps of `Session`; `_stop` there happens only inside `fault`.
- Connections.Connection.Fault: lossless only, and without the backoff; the lossy branch is in `Throttle`.
- Authentication, CRCs, signatures, protocol and feature checks, and message encoding. They only lead to a fault, which `Session` may take at any time; the authorizer's verdict is an input of `Negotiate`.
- STATE_WAIT_SEND is not a phase: a partly sent handshake message is the `torn` input of `Fault`. Keepalives are left out.
- Wrap-around of sequence numbers and of `connect_seq`, `global_seq` and byte counts.
- Race.OneAttemptWins: no socket breaks during the race.
- Standby.NoClientWaitsInStandby: the event loop runs queued handlers; that part is `WakeUp`.
- `zero_copy_read` takes the newest chunk and does not keep the stream's order; registered buffers inside the send list are not modelled either, so the list given to `submit` holds ordinary buffers.
- SocketTx.Socket.Submit: chunks are objects with their own array each, so the address arithmetic of `get_chunk_by_buffer` and `is_my_buffer` does not appear, nor does a pool whose size in bytes overflows 32 bits.
- SocketStream.StreamIsConserved: no post fails except that of FIN.
- SchedulerProgress.NoStrandedSender: `num_pending_workers` is read with the list, not before the lock is taken.
- RxDispatch.RDMADispatcher.PollRx: the hardware fills posted buffers in the order in which they were posted.
- The pauses of the polling thread, CQ rearming and the deletion of dead queue pairs.
- Table growth in `create_file_event`, file events and pollers other than their effect on blocking; pollers and the driver do not change while the loop runs.
- Timers.TimeEvents.ProcessTimeEvents: the clock a callback reads is not behind the one the pass started with.
- The handshake text message, the active-connection counter, performance counters, binding and listening.
