# Mixnet overlay: protocol, queue, framing and bring-up, verified

This project models the parts of the Mixnet repository on which its overlay network rests, and proves
what they promise:

1. **The spanning-tree and flood protocol** of a node (`mixnet/node.c`). `Overlay` is the graph,
   `NodeModel` one node as a value, `MixnetNode` the node program itself (port arrays updated in place)
   proved against that value model, and `Network` the whole network as a step system: one FIFO channel per
   directed link and the steps "deliver", "root hello", "re-election" and "user injects a FLOOD";
   `NetworkSteps` says what each kind of step does in terms of the network's variables alone.
   `NodeInNetwork` shows that the node program takes exactly the steps of that system, and `NetworkOfNodes`
   that a whole network of programs, booted and wired as the test graph says, follows a run of it.
   `StpInvariants`, `StpStable`, `StpDrain`, `StpConverge`, `StpSettled`, `Flood` and `FloodCost` hold the results, and
   `StpLive` shows that the runs they speak about exist (`Runs` and `Descent` put runs together).
2. **The lock-free message queue** (`external/itc/message_queue.c`). `MessageQueue` has one step per
   atomic counter operation and per slot load or store, with a program counter per thread: any number of
   producers, and one consumer that does all the reading and freeing. `QueueCounters`, `QueueRings` and
   `QueueBlocks` carry the invariant, `QueueTheorems` and `QueueWakeUp` the results, `QueueCalls` what one
   call comes to from its first step to its return, `QueueCounterexample`
   runs that refute two natural claims, `QueueConfigurations` the queues for which they hold, `QueueDrift` how
   the semaphore drifts, `TicketRing` the 32-bit wrap-around of the tickets.
3. **Messages over a byte stream** (`framework/networking.cpp`). `Framing` and `FramingStreams` describe
   one call and series of calls for every way in which the system can split, delay or fail them,
   `FramingCodes` the calls that fail or run out of time, `FramingDelivery` what must arrive when the
   system supplies it;
   `SocketIo` has the loops themselves on a socket and the caller's buffer, `LinkState` the drain of a
   link that goes down, `RoundRobin` the receive call of a node.
4. **Bring-up of the overlay** (`framework/orchestrator.cpp`, `framework/fragment.cpp`,
   `testing/common/graph.cpp`). `Topology` builds the test graph, `Wiring` resolves connections to ports,
   `TestOverlay` connects both to the overlay of part 1, `Bringup` is the phased request/acknowledge
   protocol in every interleaving, `BringupCompletes` how it ends without failures and `BringupFailures` what
   a failure does to it, `CollectAcks` the collect loop of one phase, and `BringupCollect` that loop within
   the protocol.

`Sums` holds finite sums over maps and counting arguments, `Basics` two stock definitions.

What the environment does is a parameter: delivery order and timers are the steps of a run; the answers of
`send`, `recv`, `poll` and the clock are scripts over which every statement is quantified. A call whose
script ends before it returns is reported as still running.

Standing assumptions, as the protocol itself makes them: node addresses are distinct and not 0xFFFF (the
stored -1 means "no address"), there are no self-loops or parallel links, a node has at most 255
neighbours, and links are reliable and FIFO. A calm run is one without re-election.

Four findings where the code does not do what one would say of it, each with the exact condition:

- "`tryread` returns NULL only if every completed write has been read" holds, over all runs, exactly for
  queues with at most one producer or with one block (`QueueConfigurations.NullMeansReadIff`). With two
  producers and two blocks, a second producer's count can let the consumer read a first producer's message
  before the first has counted it (`QueueCounterexample.NullWithUnreadMessage`). The repository's only
  direct `tryread` is on the user queue (framework/fragment.cpp:209), which has one producer
  (framework/fragment.cpp:1032-1037), so there the claim holds.
- "The consumer sleeps, with nobody about to post, only if every completed write has been read" holds for
  the same queues and no others (`QueueConfigurations.SleepMeansReadIff`). This reaches the pcap queue, which
  has a blocking consumer (framework/fragment.cpp:876) and two producers, the node thread
  (framework/fragment.cpp:158-173) and the thread that ends the test case (framework/fragment.cpp:811-814).
  No message is lost: whenever the consumer sleeps with a message unread, some writer's own next steps, at
  most six, post the semaphore (`QueueWakeUp.SleeperIsWoken`).
- The queue's semaphore does not stay between 0 and 1. If a writer has seen `blocked_readers` at 1 and the
  registered reader then finds its message after all, the writer still posts, `blocked_readers` goes to -1,
  and from then on every write posts: for every k, even with one producer and one block, the queue can be at
  rest with the semaphore at k (`QueueDrift.SemaphoreDrifts`). Its value is always the registered reader less
  `blocked_readers` less the posts under way (`QueueDrift.DriftIs`), and the next blocking read on an empty
  queue is let through exactly k times for nothing before it sleeps (`QueueDrift.SpuriousWakeUps`).
- Tickets are taken modulo the depth after they have wrapped at 2^32. This is a proper ring exactly when
  the depth divides 2^32 (`TicketRing.RingGoodIff`), which rounding to a power of two ensures.

One thing holds by a narrow margin: after re-elections nothing but their 16-bit field bounds the path
lengths, where they would wrap around, and yet the exchange of advertisements always dies out
(`StpDrain.StpExchangeDrains`), because there are fewer addresses than path lengths.

## Model

| member | source | states |
|---|---|---|
| MixnetNode.Node.constructor | mixnet/node.c:195-216 | A new node believes itself root at distance 0, has learned and opened no port, and advertises that on every port. |
| MixnetNode.Node.SendStp | mixnet/node.c:53-63 | Exactly one advertisement of the present state per neighbour port, in port order; node state unchanged. |
| MixnetNode.Node.SendFlood | mixnet/node.c:73-93 | A FLOOD on each unblocked port other than the sender, and one to the user unless the user sent it; node state unchanged. |
| MixnetNode.FloodBurstExact | mixnet/node.c:76-82 | The ports of a burst are exactly the unblocked ports other than the sender, each once. |
| MixnetNode.FloodBurstPeers | mixnet/node.c:76-82 | In terms of neighbours: the burst reaches the open set without the sender. |
| MixnetNode.Node.Update | mixnet/node.c:323-345 | The node changes exactly when the advertisement is lexicographically better, and then takes over root, length + 1 and sender. |
| MixnetNode.Node.BlockAll | mixnet/node.c:356-359 | No port stays open; nothing else changes. |
| MixnetNode.Node.ReceiveStp | mixnet/node.c:303-382 | On the port arrays, case by case: the first advertisement on a port stores its address (0xFFFF reads as "none") and opens it; a lexicographically better one on a learned port is taken over and leaves exactly that port unblocked; any other only applies the port rule; an advertisement goes out exactly on improvement; and the arrays and fields refine the value model. |
| MixnetNode.Node.HandlePacket | mixnet/node.c:257-295 | Any packet on any port: the parent's repetition is echoed without receive_STP and resets the election timer; other STP packets on neighbour ports refine the model; on the user's port they would index past the port tables, and exactly then `ok` is false; FLOODs are accepted from the user and from unblocked ports only. |
| MixnetNode.Node.Timers | mixnet/node.c:241-254 | A root sends its hello exactly when the hello interval has elapsed on the wrapping 32-bit clock, any other node re-elects itself exactly when the election interval has; a re-election makes it its own root at length 0, keeps both port arrays and advertises; the steps refine the model. |
| NodeInNetwork.Boot | mixnet/node.c:195-221 | A booted node holds the model's initial state, and its ports carry the model's initial channels. |
| NodeInNetwork.DeliverStp | mixnet/node.c:272-282 | Handling a delivered advertisement leaves the model's next node state, and adds to every port exactly what the model's step sends there. |
| NodeInNetwork.DeliverFlood | mixnet/node.c:284-294 | The same for a FLOOD, and the user receives it exactly when the model's step accepts it. |
| NodeInNetwork.Inject | mixnet/node.c:285-289 | The same for a FLOOD from the user. |
| NodeInNetwork.Tick | mixnet/node.c:241-254 | The timers take the model's hello step, its re-election step, or none. |
| NodeInNetwork.TookStands | mixnet/node.c:233-295 | After any of these steps the program is at its node of the model's next state. |
| NodeInNetwork.OtherStands | mixnet/node.c:233-295 | A step of another node leaves a program where it is. |
| NetworkOfNodes.Arrive | framework/fragment.cpp:594-676 | A packet that one program put on a transmit port is handled by the program at the other end of that wire, on the port that leads back, and all programs, wires and users are then in the model's next state. |
| NetworkOfNodes.BootedIsInitial | mixnet/node.c:195-221 | All programs after start-up are in the model's initial state, wires included. |
| NetworkOfNodes.Run | mixnet/node.c:233-296 | Whatever packets arrive, users send and clocks read, a wired network of programs follows a run of the model. |
| NetworkOfNodes.BootAndRun | mixnet/node.c:195-296 | From start-up on it is in a state that the model reaches, so that every result about reachable states holds of the programs. |
| NodeModel.HandleStpOrder | mixnet/node.c:272-282 | Handling a packet never raises (root, length, parent), and changes it only by adopting a better advertisement on a learned port. |
| Network.PacketOrigin | mixnet/node.c:53-93 | Every packet in flight was in flight before the step, or has just been sent by the acting node: an advertisement of its new state, or a FLOOD to a neighbour it forwards to. |
| NetworkSteps.ActsAlone | mixnet/node.c:233-295 | A step changes no node but the one that acts, sends on no channel but its own, and takes at most the first packet of the delivered channel. |
| NetworkSteps.ReelectStep | mixnet/node.c:248-254 | A re-election: root and next hop self, length 0, learned and open ports kept, and (self, 0, self) last on each of the node's channels. |
| NetworkSteps.HelloStep | mixnet/node.c:241-245 | A hello, of a root only: no node changes, and (self, 0, self) last on each of its channels. |
| NetworkSteps.FirstHearing | mixnet/node.c:318-321 | The first advertisement on a port teaches the neighbour and opens the port; nothing is adopted and nothing sent. |
| NetworkSteps.AdoptionBlocks | mixnet/node.c:347-367 | Every calm step that changes a node's triple delivers a better advertisement over a learned port, takes it over whole, leaves open the port to the new parent and no other, and advertises on every channel. |
| NetworkSteps.OtherHearing | mixnet/node.c:362-377 | Any other advertisement on a learned port changes at most that port's flag, open exactly for the parent and for a node one hop further out. |
| NetworkSteps.UserFloodStep | mixnet/node.c:285-289 | A user's FLOOD goes out once on every open port and nowhere else. |
| NetworkSteps.FloodStep | mixnet/node.c:284-294 | A FLOOD on an open port goes to the user and out on every other open port; on a blocked port it is dropped. |
| StpInvariants.LocalInvariants | mixnet/node.c:211-382 | In every run, re-election included: root <= own address; root is self iff length 0 iff next hop is self; a next hop that is not self is a neighbour whose port is learned and open. |
| StpInvariants.StepLocal | mixnet/node.c:233-295 | Every step of every kind keeps those local invariants. |
| StpInvariants.NodePathSimple | mixnet/node.c:325-337 | Without re-election a node's (root, length) is witnessed by a simple path of that length from that root, so length <= n - 1 and the 16-bit narrowing loses nothing. |
| StpInvariants.PacketPathSimple | mixnet/packet_init.c:29-31 | The same for every advertisement in flight. |
| StpInvariants.StepPath | mixnet/node.c:318-353 | Every calm step keeps the path witnesses of all nodes and packets. |
| StpStable.StableIffBfsTree | mixnet/node.c:273-345 | In every calmly reachable state: no neighbour's advertisement would change anything if and only if every node has the lowest address of its component as root, its hop distance as length, and the lowest-address neighbour one hop closer as parent. |
| StpStable.StepQuiet | mixnet/node.c:323-353 | Every calm step from a stable state leaves all triples unchanged and the state stable. |
| StpDrain.TakeStpDrops | mixnet/node.c:273-281 | Whatever elections came before, every delivery of an advertisement lowers a natural number: adoptions lower the summed ranks of the triples, echoes move their length towards one that no node has. |
| StpDrain.OtherKeepsMeasure | mixnet/node.c:284-294 | FLOOD deliveries and injections leave the measure alone. |
| StpDrain.StpExchangeDrains | mixnet/node.c:53-63 | From every reachable state, re-elections and wrapped path lengths included, the number of STP deliveries before the next timer event is bounded by the measure of the state: no infinite echo. |
| StpConverge.RoundConverges | mixnet/node.c:233-282 | One round (a hello of the lowest address, then a drain, anything interleaved) carries correct root and distance one hop further. |
| StpConverge.BoundedConvergence | mixnet/node.c:233-282 | After k rounds every node within k hops of the lowest address has it as root and its true hop distance. |
| StpConverge.ConvergedForever | mixnet/node.c:318-353 | And keeps them in every calm continuation. |
| StpConverge.DrainedHasLearned | mixnet/node.c:318-321 | In every reachable state, re-elections included, a drained network has every port learned. |
| StpConverge.RoundMakesQuiet | mixnet/node.c:339-345 | Once distances are right, one more round settles the choice of parents. |
| StpSettled.NetworkSettles | mixnet/node.c:233-377 | From start-up: a drain, k rounds, one round for parents and one for port flags settle the network. |
| StpSettled.SettledRun | mixnet/node.c:257-382 | A settled network keeps every node state and port flag in every calm run. |
| StpSettled.OpenLinksAreTheTree | mixnet/node.c:356-377 | Settled: a link is open at both ends iff one end is the other's next hop; equal-depth links are blocked at both ends; other uplinks at the deeper end only. |
| StpSettled.Conservation | mixnet/node.c:53-63 | Advertisements sent over a link are those delivered plus those in flight. |
| StpSettled.OneEchoPerHello | mixnet/node.c:241-281 | From a settled, drained state one hello makes each node of the component advertise exactly once, each directed link carry exactly one packet, and leaves all node states unchanged. |
| StpSettled.HelloCost | mixnet/node.c:241-281 | In all, one hello costs exactly one STP packet per directed link (2 per link). |
| Flood.FloodsDelivered | mixnet/node.c:284-294 | In any calm run of a settled network between flood-free states, each user receives exactly as many FLOODs as the other users sent. |
| Flood.FloodExactlyOnce | mixnet/node.c:73-93 | One user FLOOD reaches every other user exactly once and its own user never, despite half-open links and any delivery order. |
| Flood.FloodsDieOut | mixnet/node.c:284-294 | The number of FLOOD deliveries in any calm run without new injections is bounded by a measure of the first state. |
| FloodCost.SheetStep | mixnet/node.c:73-93 | In a settled network each delivery of a FLOOD moves the account of work done, FLOODs in flight and FLOODs received by one, and no other step moves it. |
| FloodCost.FloodDeliveries | mixnet/node.c:284-294 | In any calm run of a settled network between flood-free states, f FLOODs, however overlapping, make exactly f times (open port ends less nodes plus one) deliveries. |
| FloodCost.FullyOpenIsTree | mixnet/node.c:356-377 | A settled network of n nodes has exactly 2(n - 1) port ends that are open on both sides. |
| FloodCost.FloodCost | mixnet/node.c:73-93 | One FLOOD makes exactly one delivery per tree link and one per half-open link. |
| Flood.StartToFlood | mixnet/node.c:216-294 | Start-up, drain, k + 2 rounds, then one FLOOD: exactly-once delivery end to end. |
| StpLive.CanDrain | mixnet/node.c:273-281 | From any flood-free state that the drain result covers, every reachable one among them, deliveries alone lead to a drained state. |
| StpLive.SettlingIsPossible | mixnet/node.c:233-377 | On every overlay connected to its lowest address a settled, empty state is reachable. |
| StpLive.FloodIsPossible | mixnet/node.c:284-294 | From a settled, empty state a FLOOD can run to its end by deliveries alone, and then every other user has it exactly once. |
| QueueCounters.StepCounters | external/itc/message_queue.c:147-235 | Every atomic step keeps the accounts of free blocks, entries, and blocked readers against semaphore and pending posts. |
| QueueRings.AllocNeverWaits | external/itc/message_queue.c:149-154 | A producer past the free_blocks test always finds its freelist slot filled. |
| QueueRings.WriteNeverWaits | external/itc/message_queue.c:193-198 | A writer always finds its queue slot empty. |
| QueueRings.ReaderWaitsForWriter | external/itc/message_queue.c:209-214 | A reader that finds an empty slot has a writer with the same ticket between its fetch-and-add and its store. |
| QueueTheorems.FreerWaitsForAllocator | external/itc/message_queue.c:178-183 | A freer that finds a full slot waits for an allocator that has taken that ticket and not yet emptied the slot. |
| QueueBlocks.StepOwn | external/itc/message_queue.c:147-220 | Every atomic step keeps "each block has exactly one owner" and hands over at most one block. |
| QueueBlocks.QueueIsFifo | external/itc/message_queue.c:192-220 | In every interleaving the values read are a prefix of the values written, in write-ticket order. |
| QueueTheorems.OneOwnerPerBlock | external/itc/message_queue.c:147-205 | In every reachable state each block is in exactly one place: one freelist slot, one queue slot, one producer or the consumer. |
| QueueTheorems.HoldersDiffer | external/itc/message_queue.c:147-205 | No two threads hold the same block. |
| QueueTheorems.SpinsEnd | external/itc/message_queue.c:151-213 | Spins of alloc and write never wait; those of read and free wait only for a producer that already holds the ticket. |
| QueueTheorems.NullReadExact | external/itc/message_queue.c:207-220 | When tryread is about to return NULL, every completed write has been read if and only if no producer's message has been read before it was counted. |
| QueueTheorems.NullReadQuiet | external/itc/message_queue.c:207-220 | With no writer between its store and its count, NULL means every completed write has been read. |
| QueueTheorems.NoLostWakeUp | external/itc/message_queue.c:200-235 | blocked_readers plus semaphore plus writers about to post equals the number of registered readers; a sleeper with nobody about to post sees entries = 0; and while any written message is unread, some writer has still to count or to post. |
| QueueWakeUp.SleeperIsWoken | external/itc/message_queue.c:192-235 | Whenever the consumer sleeps on a zero semaphore with a message unread, some writer's own next steps, at most six, post it. |
| QueueCalls.TryReadNeverSleeps | external/itc/message_queue.c:207-220 | In every run, from a call of tryread to its return the consumer neither registers nor sleeps; it returns with exactly one message more, or with none. |
| QueueCalls.ReadReturnsMessage | external/itc/message_queue.c:222-235 | In every run, after a call of read the consumer is not at rest before it has held a message, and then it has read exactly one more. |
| QueueCalls.FirstTwoSteps | external/itc/message_queue.c:207-235 | Whatever other threads do between, the counter at the call's first step decides: not positive, and tryread is back at rest with nothing read while read goes on to register; positive, and either holds the next ticket. |
| QueueCalls.TryReadOnEmpty | external/itc/message_queue.c:207-220 | A tryread on an empty queue, undisturbed, leaves the state exactly as it was. |
| QueueCalls.AllocFirstTwoSteps | external/itc/message_queue.c:147-162 | An alloc returns NULL exactly when no free block was counted at its first step, with the counter restored; otherwise it holds the next freelist ticket. |
| QueueConfigurations.NeverReadEarly | external/itc/message_queue.c:192-220 | With one producer or one block, no message is ever read before it is counted. |
| QueueConfigurations.NullMeansReadIff | external/itc/message_queue.c:207-220 | Over all runs of a set of producers, NULL means that every completed write has been read if and only if there is at most one producer or one block. |
| QueueConfigurations.SleepMeansReadIff | external/itc/message_queue.c:222-235 | The same, if and only if, for a consumer that sleeps with nobody about to post. |
| QueueDrift.SemaphoreDrifts | external/itc/message_queue.c:200-204 | For every k, with any depth and a single producer, a reachable state at rest with the semaphore at k and blocked_readers at -k. |
| QueueDrift.DriftIs | external/itc/message_queue.c:200-235 | In every reachable state the semaphore is the registered reader less blocked_readers less the posts under way. |
| QueueDrift.SpuriousWakeUps | external/itc/message_queue.c:222-235 | A blocking read on an empty queue with the semaphore at k passes it exactly k times before it sleeps on zero. |
| QueueCounterexample.NullWithUnreadMessage | external/itc/message_queue.c:192-220 | For every depth of at least two and any two producers, a reachable state in which tryread returns NULL with a completed, unread write. |
| QueueCounterexample.SleepsOnUnreadMessage | external/itc/message_queue.c:222-235 | For the same queues, a reachable state in which read sleeps with a completed, unread write and nobody about to post. |
| TicketRing.RoundToPow2 | external/itc/message_queue.c:54-63 | The least power of two not below the argument; 0 for 0 and above 2^31. |
| TicketRing.DepthDividesWrap | external/itc/message_queue.c:54-63 | The rounded depth divides 2^32. |
| TicketRing.RingGoodIff | external/itc/message_queue.c:149-149 | Wrapping 32-bit tickets taken modulo a depth behave as a ring if and only if the depth divides 2^32. |
| TicketRing.RoundedRingIsGood | external/itc/message_queue.c:54-63 | So every rounded depth gives a ring, and the queue results survive the wrap. |
| Framing.RecvMeaning | framework/networking.cpp:290-395 | For every descriptor, mode and behaviour of the system: a call whose mode the descriptor does not allow is refused without effect, every other one runs; success takes and shows exactly one whole message; zero-pending and malformed take nothing; other failures take less than a message; nothing is written beyond the decoded length. |
| Framing.RecvRefused | framework/networking.cpp:211-228 | A receive is a bad operation exactly on a blocking descriptor in a mode that is not blocking, and fails on its options exactly when the flags cannot be read. |
| Framing.RecvExact | framework/networking.cpp:311-394 | On a nonblocking descriptor, or in blocking mode on a blocking one, without failure and in time: with a whole message ahead a blocking or timed receive succeeds exactly when the system has offered the length at once, (timed mode) the message in one piece, and then the message in any pieces. |
| Framing.TryOnceExact | framework/networking.cpp:318-377 | A try-once receive ends within three system calls, with the code and the bytes taken that the three answers call for in every case; it succeeds exactly when a whole message is ahead and all three are answered in full. |
| FramingCodes.RecvNotWhole | framework/networking.cpp:311-357 | Without a whole message ahead, and without failure or time-out, a blocking or timed receive goes on, except that it reports a bad length once it has seen two bytes. |
| FramingCodes.RecvBreaks | framework/networking.cpp:317-330 | The first error or shutdown that a receive meets ends it as a broken connection with what it took before; what comes after its return does not matter. |
| FramingCodes.RecvTimesOut | framework/networking.cpp:309-394 | A timed receive has returned once the clock shows its limit, reports a time-out never before, and with limit 0 takes nothing. |
| FramingCodes.SendBreaks | framework/networking.cpp:264-269 | The first error that a send meets ends it as a broken connection with what it sent before. |
| FramingCodes.SendTimesOut | framework/networking.cpp:259-282 | A timed send has returned once the clock shows its limit, and reports a time-out never before. |
| FramingStreams.SendMeaning | framework/networking.cpp:240-283 | A send puts out a prefix of its message, the whole exactly when it succeeds, and nothing for a bad length. |
| FramingStreams.SendRefused | framework/networking.cpp:211-228 | A send is a bad operation exactly on a blocking descriptor in a mode that is not blocking or, on any readable one, in try-once mode; it fails on its options exactly when the flags cannot be read. |
| FramingStreams.SendExact | framework/networking.cpp:261-282 | Where the descriptor allows the mode, without failure and in time, a send succeeds exactly when the system has offered to take the whole message. |
| FramingStreams.SendsFrame | framework/networking.cpp:240-283 | Any series of sends leaves the accepted messages on the stream, whole and in order, then at most part of one. |
| FramingStreams.RecvOnBoundary | framework/networking.cpp:290-395 | One receive on a message boundary returns the next message or takes nothing or breaks off; it never finds a message malformed. |
| FramingStreams.SessionRoundTrip | framework/networking.cpp:290-395 | Any series of receives in any modes returns the first of the sent messages in order and leaves the stream on a boundary unless its last call broke off. |
| FramingStreams.EndToEnd | framework/networking.cpp:240-395 | Sends and receives together: what comes out is a prefix of what was accepted, and all of it once every byte has been taken. |
| FramingDelivery.SessionDelivers | framework/networking.cpp:290-395 | A series of receives in any allowed modes, each supplied with its message, returns exactly those messages and stops behind the last. |
| FramingDelivery.SendsAccepted | framework/networking.cpp:240-283 | A series of sends that the system takes in full puts out exactly the messages, one after the other. |
| FramingDelivery.EverythingArrives | framework/networking.cpp:240-395 | Both together: as many receives as sends return exactly the messages sent. |
| FramingStreams.DrainKeepsBoundary | framework/fragment.cpp:1054-1065 | A drain that ends in zero-pending removes whole messages only and leaves a boundary. |
| FramingStreams.DrainThenSession | framework/fragment.cpp:1042-1066 | Link down, drain, link up: the sessions before and after return the sent messages in order with exactly the drained ones missing. |
| FramingDelivery.DrainTakes | framework/fragment.cpp:1054-1065 | A drain takes at least the first k messages if its first k receives are answered in full. |
| FramingDelivery.DrainEndsEmpty | framework/fragment.cpp:1054-1065 | A drain that ends in zero-pending has made a receive at its final position that found nothing pending. |
| FramingDelivery.DrainEmpties | framework/fragment.cpp:1054-1065 | With k messages pending and then nothing, a drain drops all k and no more. |
| SocketIo.Digest | framework/networking.cpp:322-388 | The branches of one turn of the receive loop, on its own variables, agree with the specification in every mode and phase. |
| SocketIo.Socket.SendGeneric | framework/networking.cpp:240-283 | The send loop puts on the stream exactly what the specification says, with its code; which calls it refuses is FramingStreams.SendRefused. |
| SocketIo.Socket.RecvGeneric | framework/networking.cpp:290-395 | The receive loop returns the specified code, takes the specified bytes, and leaves in the buffer exactly the shown prefix of the stream followed by what was there; on success the buffer begins with the next message, the rest of it is as before, and the stream is behind that message. |
| LinkState.UpdateLinkState | framework/fragment.cpp:1042-1066 | Sets exactly one flag; going down, drains that socket as specified (what a drain must take is FramingDelivery.DrainTakes) and reports zero-pending as success. |
| RoundRobin.NodeContext.NodeRecv | framework/fragment.cpp:198-261 | Looks at one port after the other, around from the present index and each at most once, up to the first that responds; a port whose link is down is never served and never ends the node; a packet comes from a ready port and the next call starts behind it; nothing is returned only if no port responds. |
| RoundRobin.BoundedBypass | framework/fragment.cpp:198-261 | A port that stays ready is served within num_neighbors + 1 calls from any starting index. |
| RoundRobin.NoPortTwice | framework/fragment.cpp:251-258 | While a ready port waits, no other port is served twice. |
| Topology.EdgeKeepsSimple | testing/common/graph.cpp:25-45 | Adding a new edge keeps adjacency in range, irreflexive, symmetric and duplicate-free. |
| Topology.Graph.AddEdge | testing/common/graph.cpp:25-45 | Under the source's own assertions (costs are unsigned 16-bit numbers there), appends each end to the other's list with its cost; the adjacency gains exactly the two pairs. |
| Topology.LineIs | testing/common/graph.cpp:59-64 | A line joins exactly each node with the next. |
| Topology.RingIs | testing/common/graph.cpp:66-72 | A ring is exactly the line and the link from its last node to its first. |
| Topology.StarIs | testing/common/graph.cpp:83-88 | A star joins exactly its first node with each other. |
| Topology.MeshIs | testing/common/graph.cpp:74-81 | A full mesh joins exactly every two different nodes. |
| Topology.Graph.GenerateTopology | testing/common/graph.cpp:53-93 | Adds exactly the adjacencies of the line, ring, star or full mesh over the given (or all) nodes, and keeps the graph simple. |
| Wiring.ResolveRequest | framework/orchestrator.cpp:623-646 | For each neighbour the address from which it connected; the symmetry of the graph makes the source's assertion hold. |
| Wiring.ResolveSockets | framework/fragment.cpp:652-676 | For each address the accepted connection with that address; fails exactly when one was not accepted. |
| Wiring.DistinctIsHonest | framework/fragment.cpp:662-664 | With distinct client addresses, an accepted address identifies its connection. |
| Wiring.Resolve | framework/orchestrator.cpp:617-658 | Resolution succeeds exactly when every client of the node has been accepted, and then TX port i of u and RX port j of v are one connection iff v is u's i-th and u is v's j-th neighbour. |
| Wiring.EachPortFedOnce | framework/fragment.cpp:594-676 | With every node wired, each RX port is fed by exactly one TX port, that of the neighbour it leads to. |
| TestOverlay.OverlayIsValid | testing/common/graph.cpp:25-45 | A simple graph with distinct valid addresses is an overlay to which the protocol results apply, and each node's ports name its neighbours once. |
| TestOverlay.ShapeIsConnected | testing/common/graph.cpp:53-93 | Every generated shape over all nodes is connected. |
| TestOverlay.ShapeHasCentre | testing/common/graph.cpp:53-93 | So it meets the premises of the convergence and flood results. |
| Bringup.PhaseBarrier | framework/orchestrator.cpp:847-885 | In every interleaving, once a fragment has received the request of a phase, every fragment has acknowledged all phases before it. |
| Bringup.ServersBeforeClients | framework/orchestrator.cpp:830-885 | By name: no fragment is told to listen before every one knows its neighbours, to connect before every one listens, to match before every one has connected, or to start before every one has matched. |
| Bringup.LockStep | framework/orchestrator.cpp:806-885 | When the orchestrator begins a phase, every fragment has received and acknowledged exactly the phases before it and nothing is under way. |
| Bringup.NoMismatch | framework/fragment.cpp:379-401 | While no error is recorded, no request or reply is ever of the wrong phase. |
| BringupCompletes.SmoothRunEnds | framework/orchestrator.cpp:806-885 | Without failures, for every number n of fragments and every interleaving: bring-up is done exactly after 6(4n + 2) steps, with every fragment having received and acknowledged all six phases, and until then it never gets stuck. |
| BringupCompletes.CompleteRun | framework/orchestrator.cpp:806-885 | Every failure-free beginning can be completed. |
| BringupCompletes.BringupCompletes | framework/orchestrator.cpp:806-885 | So for every n a run to the end exists. |
| BringupFailures.FailureIsFinal | framework/orchestrator.cpp:824-885 | After a failed send, a failed or refused reply, a missing reply or a passed deadline, no further phase begins and bring-up is never done. |
| BringupFailures.DeadStays | framework/fragment.cpp:379-401 | A fragment that has crashed or refused a request receives and acknowledges nothing more, and bring-up is never done unless it had acknowledged every phase. |
| CollectAcks.Collect | framework/orchestrator.cpp:193-257 | Handles the first reply of each index at most once and in whatever order; goes on, errors or not, exactly until every index has answered or time is up; succeeds exactly when every index has given one good reply; otherwise reports the first error, or a timeout. |
| BringupCollect.CollectRun | framework/orchestrator.cpp:223-251 | In every interleaving with the fragments, the indices handled and the error flag are those of the log of replies: each index once, an error exactly if some reply was bad. |
| BringupCollect.VerdictDecides | framework/orchestrator.cpp:253-257 | A phase gives way to the next exactly when its log has the collect loop's verdict "all acknowledged". |

## Left out

- Post-failure reconvergence of the spanning tree and link failures: after a re-election stale roots can circulate, so runs with re-election have only the local invariants.
- Freedom from transient loops: a port is opened when it is first learned, so cycles before convergence are possible and nothing is claimed about them.
- Start-up order of nodes: the network starts with every node's first advertisements already in their channels.
- Interleaving inside one pass of a node's main loop: the timers and the handling of one packet are one step each; that the source receives before it looks at the timers and handles afterwards is absorbed by the order of steps.
- FLOOD packet contents, and the LSA, DATA and PING packet types, which the node does not handle.
- More than 255 neighbours: the node keeps the count in 8 bits.
- Multi-consumer or multi-freer use of the message queue: the repository has one consumer per queue.
- message_queue_message_alloc_blocking and the allocator's semaphore, which no caller uses; queue initialisation and destruction; timing of usleep.
- The largest value a semaphore can hold (SEM_VALUE_MAX): the model's semaphore is unbounded, and its drift is not stopped.
- Weak memory: every load and store of the queue is taken to be sequentially consistent.
- TicketRing.RoundedRingIsGood: not stated for a depth of 0 or above 2^31, where rounding gives 0.
- Memory allocation failures and leaks, printing, and debug functions.
- Socket set-up, accept and connect, fork and exec, signals: the environment.
- SETUP_CTRL, where the fragment speaks first, and the extra handshake on the pcap sockets, are before or beside the modelled phases; the shutdown phases after an error are one stopped state.
- What remains on a control stream after a failed partial send: the orchestrator sends no further phase request on it.
- The size checks of node_send and the length tables of framework/message.cpp, which would add only easy members.
- External argument parser and the test cases.
