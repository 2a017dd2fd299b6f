# Verified model of the game-server benchmark

One wire protocol, one room simulation, several servers that implement them with very different
machinery, and load generators that measure the servers. This project models the machinery that
can go wrong between the system calls and proves what it keeps.

- **Wire format and framing** (`Wire`, `Framing`). Big-endian messages, the client's snapshot
  decoder, and reassembly of length-prefixed frames from arbitrary pieces of a byte stream.
- **The Go servers** (`Room`, `RoomActor`, `GoServer`, `Pool`, `PoolSafety`, `PoolRefinement`, `Delivery`,
  `PoolDelivery`).
  The room goroutine as code over player objects and a frame filled in place; the allocating
  server and the pooled, reference-counting server as machines of atomic steps of rooms, readers
  and writers in any interleaving. `release` is two steps, a decrement and a put; a broadcast is
  get, fill, store of the count, and one send or drop per recipient. Every recycled buffer comes
  back with arbitrary contents. The pooled server is safe, and refines the allocating one; and of both it
  is proved whom a broadcast serves and how often, what each socket gets, and where each player is.
- **The epoll reactor** (`Outbound`, `Inbound`, `Peers`, `Lists`, `Reactor`, `Events`, `ReactorRun`,
  `Streams`, `Queues`, `SecondJoin`, `TickWalk`, `ClosedWrites`, `InOrder`, `Motion`). `Outbound` states what a queue with
  partial writes and shedding does, `Inbound` what a readiness event reads, `Peers` what each event does
  to one connection, `Lists` what it does to a whole worker, in any state that second JOINs may have
  left its member lists in. `Reactor` is the code over connection and room objects, with swap-removal
  inside the very loop that walks over the member list; each of its methods is proved, in any state, to
  do what the function of `Lists` of that event says. `Events` folds these functions over a run, and
  `ReactorRun` proves that the event loop computes just that. The others are what follows for every
  run: what a connection's own byte stream determines (`Streams`), what its socket gets (`Queues`), which
  slots it has (`SecondJoin`), whom a tick reaches (`TickWalk`), which closed connections are still
  written to (`ClosedWrites`), what holds while nobody joins twice (`InOrder`), and where everyone is
  then (`Motion`).
- **Membership** (`Membership`) of the zig and odin servers, with second JOINs and closes.
- **The pooled Dart server** (`DartInbound`, `DartOutbound`, `Pids`). Parse in place against
  append-then-parse, the sliding-window write queue with its amortised cost, ids in strides.
- **Overflow policy** (`Positions`). When a server cuts numbers to 32 bits cannot be seen on the
  wire, so ocaml and clojure agree with the servers that wrap at every tick.
- **The load generator** (`SendTimes`, `RingOrder`, `Schedule`, `Sched`, `LoadGen`, `Histogram`,
  `Measure`). The open-loop send schedule on a ring, the ring of send times, latency histograms per
  worker and their merge.
- **End to end** (`EndToEnd`, `EndToEndSafety`). Clients, byte streams and a reactor worker as one
  machine, built from the same `Peers` functions that the reactor's methods are proved to compute, and
  what every client observes in every run.

The kernel is a script of answers held by each connection: how many bytes a write accepts, what a
read yields, would-block, interrupted, or an error. The clock is a parameter that never runs
backwards. Map iteration orders and the choice of the buffer pool are parameters of the step that
makes them. Where the source holds an `atomic` counter or a channel, one access is one step.
Integers are unbounded; the 32-bit and 16-bit wrap-arounds are written out where they matter.

## What turned out not to hold

- The header of the odin load generator says that the ring of pending sends stays sorted. It does
  not: `RingOrder.RingNotAlwaysSorted` gives inputs. `RingOrder.FireKeepsSorted` says exactly when one
  send keeps it sorted, `RingOrder.PassKeepsSorted` exactly when a whole send pass does, and
  `RingOrder.JoinKeepsSorted` that a join never breaks the order by itself. What does hold in every
  reachable state is that no entry is more than two intervals later than one behind it, and that this
  is enough: after a send pass nothing is two intervals overdue.
- The go-epoll server does not leave the old room on a second JOIN. `InOrder.JoinKeepsOrder` says that
  the member lists keep their order exactly when the connection was in no room before,
  `SecondJoin.ClosedIsListed` that a closed connection is still in a member list exactly when it had
  joined at least twice, and `ClosedWrites.ClosedIsWritten` that the next tick of some room writes to it
  exactly when, besides, nothing is queued for it; `ClosedWrites.TwiceThenGone` is such a run. The zig and
  odin servers do leave, and `Membership` is stated for any number of JOINs.
- Nor does a tick of the go-epoll server then reach every member once. `TickWalk.OnceIffDistinct` says that
  the loop reaches nobody twice exactly when no connection has two slots of the list, whatever fails on
  the way; `TickWalk.TwiceReached` is a list on which a failed write makes it reach a healthy member twice.
- PROTOCOL.md (lines 43 and 58-59) has one snapshot per tick go to every connection in the room. The go and
  go-pool servers send it once for each player (`Delivery.BroadcastServes`), so a connection that has
  joined a room twice is offered each snapshot twice.
- A snapshot of more than 65535 members does not survive its u16 count, and its frame is then longer
  than a client accepts: `Wire.SnapshotRoundTrip` and `Wire.SnapshotAccepted` state both.

## Model

| member | source | states |
|---|---|---|
| Wire.SnapshotRoundTrip | loadgen-odin/main.odin:254-282 | for every tick and member count, the client decodes from a snapshot the tick modulo 2^32 and the first `n mod 65536` members, ids and sequence numbers as u32, positions as i32 |
| Wire.SnapshotAccepted | loadgen-odin/main.odin:296-303 | a snapshot passes the client's length check if and only if its members fit the u16 count, and then nothing is lost |
| Wire.MessageFields | servers/go-epoll/main.go:283-312 | what a server reads at the fixed offsets of a JOIN and a MOVE is what the client put there |
| Wire.Be32Equal | servers/dart-pool/server.dart:73-78 | two integers serialise to the same four bytes if and only if they agree modulo 2^32 |
| Wire.FindOwn | loadgen-odin/main.odin:258-281 | the in-place scan of a payload finds the sequence number of the first entry with the client's id in the decoded snapshot, 0 if there is none, also for truncated payloads |
| Wire.Examples | PROTOCOL.md:6-41 | JOIN, MOVE and JOINED byte for byte, by example: big-endian, two's complement, length first |
| Wire.SnapshotExample | PROTOCOL.md:43-49 | the same for a snapshot |
| Framing.ChunkingInvariance | servers/go-epoll/main.go:257-281 | two ways of cutting one inbound stream into reads lead to the same dispatched frames, the same rejection and, while the connection is open, the same unconsumed bytes |
| Framing.ReadsSettle | servers/go-epoll/main.go:257-281 | whatever a new connection has read, no whole frame is left in its buffer |
| Framing.ChunkingAnytime | servers/go-epoll/main.go:230-281 | so, after any reads at all, two ways of cutting the bytes to come make no difference |
| Framing.PrefixOfStream | loadgen-odin/main.odin:286-310 | a receiver of any prefix of a stream of whole frames has dispatched exactly the first few of them, untorn, and has rejected nothing |
| Framing.WholeStream | loadgen-odin/main.odin:286-310 | a stream of whole frames parses back to exactly these frames |
| Framing.NextLength | servers/go-epoll/main.go:257-281 | after whole frames, the connection is closed with nothing more dispatched if and only if the next length is 0 or above 2^20; any other length waits for its payload, and then dispatches it |
| RoomActor.Room.Join | servers/go-pool/main.go:121-125 | a JOIN command adds a fresh player at the origin and its connection, and changes nobody else |
| RoomActor.Room.Move | servers/go-pool/main.go:126-129 | a MOVE command sets velocity and sequence number of that player only, and is ignored for an unknown player |
| RoomActor.Room.Leave | servers/go-pool/main.go:130-132 | a LEAVE command removes the player and its connection and nothing else |
| RoomActor.Room.Advance | servers/go-pool/main.go:141-145 | a tick advances the tick number modulo 2^32 and every player exactly once by its velocity, wrapped to i32, in any iteration order |
| RoomActor.Room.Fill | servers/go-pool/main.go:156-169 | filling a recycled buffer of enough length yields exactly the bytes of the snapshot frame, whatever the buffer held before |
| PoolSafety.InvStep | servers/go-pool/main.go:58-72 | every atomic step of every room, reader and writer keeps the invariant of the reference-count protocol |
| PoolSafety.CountsAreReferences | servers/go-pool/main.go:172-184 | in every reachable interleaving the count of a buffer is channel slots plus writers plus recipients not yet served; it is in exactly one place; it reaches zero once per hand-out and is put back at most once per hand-out |
| PoolSafety.PooledIsUnreachable | servers/go-pool/main.go:68-72 | in every reachable interleaving, a buffer in the pool is there once, and no channel, writer, reader or room can still reach it |
| PoolSafety.Frozen | servers/go-pool/main.go:171-184 | in every reachable interleaving, from the store of its count to its last release no step of any goroutine changes the bytes of a buffer |
| PoolRefinement.StepRefines | servers/go-pool/main.go:140-184 | replacing every buffer by its contents, each step of the pooled server is the same step of the allocating server, or none |
| PoolRefinement.SameBytesOnEverySocket | servers/go/main.go:101-135 | under the same interleaving the pooled and the allocating server hand the same bytes to every socket and drop the same number of snapshots per client |
| Delivery.BroadcastServes | servers/go/main.go:101-128 | from one tick of a room to its next, whatever order the maps yield and whatever others do: a connection has been offered the snapshot of that tick, queued or counted as a drop, never more often than it has players in the room, and exactly that often once the room is idle again |
| Delivery.SocketGetsFrames | servers/go/main.go:154-172 | in every run a socket gets the beginning of the whole frames that entered its connection's queue, in that order, and the rest is in the writer's hands or queued until the writer quits |
| Delivery.PlayersAre | servers/go/main.go:75-108 | in every run ids are the numbers of the JOINs modulo 2^32, tick numbers those of a room's ticks, and a room holds exactly the players that joined it and have not left, each at the sum of the velocities that its own MOVEs had set at each tick since, wrapped once, with its last velocity and sequence number and its own connection |
| Delivery.IdsDiffer | servers/go/main.go:82-86 | while fewer than 2^32 connections have joined, later JOINs get greater ids, and none gets 0 |
| Delivery.RunReplies | servers/go/main.go:186-200 | in every run what a reader queues is, byte for byte, the acknowledgement of its connection's last JOIN, with the id and the room of that JOIN, once |
| PoolDelivery.BroadcastServes | servers/go-pool/main.go:171-184 | the same count for the pooled server, where what is queued is a buffer that holds the snapshot |
| PoolDelivery.PlayersAndSockets | servers/go-pool/main.go:114-170 | the pooled server's players, ids, tick numbers and sockets are the same |
| Outbound.RunQueued | servers/go-epoll/main.go:355-412 | for every pattern of partial writes, interruptions, blocked writes, errors and sheds: accepted bytes followed by queued bytes are whole admitted frames in offer order, write interest is armed exactly while bytes are queued, and the queue is at most the cap minus one plus the largest frame |
| Outbound.PeerSeesWholeFrames | servers/go-epoll/main.go:355-404 | a peer that parses whatever the kernel accepted dispatches the first few admitted payloads, in order and untorn, and all of them once the queue is empty |
| Outbound.EnqueueTakes | servers/go-epoll/main.go:355-379 | a frame offered to an open connection is taken in whole, behind what was there, unless 2^20 bytes are queued or nothing is and the write fails for good; the kernel is asked once if nothing was queued and never otherwise |
| Outbound.RunAdmits | servers/go-epoll/main.go:371-378 | in every run exactly the frames that found room were admitted; all that were offered if and only if each found room |
| Outbound.FlushSends | servers/go-epoll/main.go:381-405 | a writable event sends what the answers accept before the first that blocks, fails or takes nothing, up to all that is queued; write interest ends if and only if that is all, no answer is used up in vain, and the connection is closed if and only if the answer that stopped it failed |
| Inbound.DrainReads | servers/go-epoll/main.go:230-255 | a readiness event ends at the first answer that is neither an interruption nor a read that filled the buffer; it takes all bytes up to and with that one, and the connection is lost if and only if that one is an error or the end of file |
| Reactor.Conn.Drain | servers/go-epoll/main.go:381-404 | the write loop over the connection's buffer does what the queue specification says, up to the hard error that makes the caller close |
| Reactor.Conn.Queue | servers/go-epoll/main.go:355-379 | the same for writing, queueing or shedding one frame |
| Reactor.Conn.ReadAll | servers/go-epoll/main.go:230-255 | the read loop appends what the socket had to the buffer, and tells a lost connection |
| Reactor.Worker.Unlist | servers/go-epoll/main.go:420-430 | swap-remove in any state: if the connection is where its index says, the last member takes its slot with its index corrected and the slice is one shorter, its backing array otherwise untouched; if not, nothing changes |
| Reactor.Worker.CloseConn | servers/go-epoll/main.go:414-431 | in any state of the lists: closing is idempotent, swap-removes from the room that the connection is in, forgets that room, and changes nothing of anyone else but the index of the member that was moved |
| Reactor.Worker.Enqueue | servers/go-epoll/main.go:355-379 | in any state, also for a closed connection still in a list: the outbound queue changes as specified, and the lists change only if the connection had to be closed |
| Reactor.Worker.Flush | servers/go-epoll/main.go:381-405 | likewise for a writable event of an open connection |
| Reactor.Worker.Join | servers/go-epoll/main.go:285-304 | in any state a JOIN takes the next id, makes the room if there was none, appends without leaving an old room, and acknowledges |
| Reactor.Worker.Handle | servers/go-epoll/main.go:283-312 | in any state, what a frame does: a JOIN as above, a MOVE sets sequence number and velocity as encoded and nothing else, even before a JOIN, short and unknown frames change nothing |
| Reactor.Worker.Parse | servers/go-epoll/main.go:257-281 | the parse loop with one compaction at its end folds the handler over exactly the frames that the reassembly of the buffer dispatches, when the verdict on a frame is whether that fold has closed the connection |
| Reactor.Worker.OnReadable | servers/go-epoll/main.go:230-281 | a readiness event does that to the buffer followed by the bytes read; if the connection is lost nothing is dispatched, even of what was read |
| Reactor.Worker.Build | servers/go-epoll/main.go:329-348 | in any state of the lists, repeated members included: the owner of each slot is moved in turn, and the reused buffer holds exactly the framed snapshot of the entries as they came |
| Reactor.Worker.Broadcast | servers/go-epoll/main.go:349-351 | in any state of the lists: the loop offers the frame to whoever is in each slot of the slice as it was at the start, while failing writes shrink the list and overwrite slots ahead of the loop |
| Reactor.Worker.Step | servers/go-epoll/main.go:323-352 | one tick of a room in any state: next tick number, then both loops; an empty room is left alone |
| Reactor.Worker.OnTick | servers/go-epoll/main.go:315-321 | one timer event in any state: every room ticks, in the order in which the map yields them |
| Lists.HandledPeer | servers/go-epoll/main.go:283-312 | in any state of the lists a frame makes of its connection what `Peers.Handle` says, the function on which the end-to-end results rest, and nothing of the others |
| ReactorRun.Run | servers/go-epoll/main.go:177-215 | after any events, with any answers of the kernel and any orders of the rooms, the connections accepted, their fields, buffers and queues, and all member lists are those that the fold of the events over a new worker gives |
| Streams.OpenIsSpoken | servers/go-epoll/main.go:230-312 | in every run the connections are as many as were accepted; one that hung up, or whose reads met the end of file or an error, is closed; and an open one is in the room, has the velocity and sequence number, and has joined as often as the whole frames of the bytes read from its socket say, however cut into reads and whatever happened to others, to its queue or at ticks; its buffer is what is left of them |
| Queues.RunQueued | servers/go-epoll/main.go:355-412 | in every run, second JOINs included, each socket has got the beginning of the whole frames that its queue admitted, the rest of them is queued, and while the connection is open write interest is armed exactly while something is |
| Queues.WritableSends | servers/go-epoll/main.go:381-405 | in any state a writable event of an open connection does to it what the answers say, as in `Outbound.FlushSends` |
| Motion.PositionIs | servers/go-epoll/main.go:315-343 | after any run in which nobody joins twice each open connection is at the sum, wrapped once, of the velocities that its own byte stream had set at the timer events that found it in a room |
| Motion.NextEntry | servers/go-epoll/main.go:331-348 | and the next snapshot of its room shows it one step on, with the sequence number of its last MOVE |
| Motion.TickNumberIs | servers/go-epoll/main.go:323-330 | after any such run the tick number of a room is how many timer events have found members in it, modulo 2^32 |
| Motion.TickCounts | servers/go-epoll/main.go:323-330 | in any state a tick of a room that has members counts one on, and no other room's number changes |
| SecondJoin.CloseSlots | servers/go-epoll/main.go:422-430 | a close takes out at most one slot, that of the connection's own index, and moves at most one, the last of that list, whose owner's index follows |
| SecondJoin.CloseMoves | servers/go-epoll/main.go:422-430 | a connection with one slot still has exactly one after another's close, where its index says |
| SecondJoin.RunAll | servers/go-epoll/main.go:177-215 | in every run, ticks and failing writes included: who has not joined has no slot, an open connection that has joined once has exactly one, where its index says, who joined more often has at least two while open and at least one when closed |
| SecondJoin.ClosedIsListed | servers/go-epoll/main.go:285-304 | in every run a closed connection is in some member list if and only if it had joined at least twice, and an open one if and only if it has joined |
| TickWalk.WalkOffers | servers/go-epoll/main.go:349-351 | in any state of the lists the loop offers everyone the frame exactly as often as it finds them, and touches nobody else |
| TickWalk.AllReached | servers/go-epoll/main.go:349-351 | in any state every owner of a slot of the slice is reached at least once, whatever fails on the way |
| TickWalk.OnceIffDistinct | servers/go-epoll/main.go:349-351 | in any state the loop reaches nobody twice if and only if no connection has two of the slots |
| TickWalk.TickTimes | servers/go-epoll/main.go:323-352 | a whole tick in any state: everyone is moved once for each slot and offered the frame as often as reached, and those reached are exactly those with a slot |
| TickWalk.TickMoves | servers/go-epoll/main.go:338-343 | in numbers: whoever has `m` slots is moved by `m` times the velocity, x by vx and y by vy, wrapped once, and keeps id, velocity and sequence number |
| TickWalk.TickShows | servers/go-epoll/main.go:329-348 | the snapshot of a tick in any state has the next tick number and, slot by slot, id, position after the moves up to that slot, and sequence number of the owner |
| TickWalk.TwiceReached | servers/go-epoll/main.go:349-351 | a list with one connection in two slots whose write fails in the first: the last member is moved into the second and reached twice |
| TickWalk.WrittenIff | servers/go-epoll/main.go:355-378 | in any state the loop makes a write system call for exactly those with a slot and nothing queued |
| ClosedWrites.TickWritesIff | servers/go-epoll/main.go:323-378 | in any state a tick of a room writes to exactly the connections in its list, closed or not, that have nothing queued |
| ClosedWrites.TickAsks | servers/go-epoll/main.go:355-378 | those written to use up an answer of the kernel; for all others nothing reaches the socket, and what was queued stays queued |
| ClosedWrites.ClosedIsWritten | servers/go-epoll/main.go:349-378 | after any run the next tick of some room writes to a closed connection if and only if it had joined at least twice and nothing is queued for it |
| ClosedWrites.TwiceThenGone | servers/go-epoll/main.go:285-304 | a run in which one connection joins two rooms and hangs up, and is then closed, listed and written to |
| InOrder.JoinKeepsOrder | servers/go-epoll/main.go:285-304 | a JOIN keeps all rooms in order if and only if the connection was in none before |
| InOrder.BecomeKeepsOrder | servers/go-epoll/main.go:355-431 | whatever else happens to one connection, its closing included, keeps all rooms in order |
| InOrder.TickOnce | servers/go-epoll/main.go:323-352 | a tick of a room in order moves every member once and offers it, once, the snapshot of all of them in list order, whatever fails on the way, and touches nobody else |
| InOrder.TimerOnce | servers/go-epoll/main.go:315-321 | a timer event with all rooms in order, in whatever order they come and whatever fails: everyone in a room is moved once and offered the frame of its own room once, all others are left alone, and all rooms are in order again |
| InOrder.RunInOrder | servers/go-epoll/main.go:285-304 | in any run in which nobody joins twice every room lists exactly the open connections that are in it, once, at their indices |
| InOrder.ListsAreStreams | servers/go-epoll/main.go:283-312 | in any such run the list of a room consists of exactly those accepted connections that are open and whose own byte stream names this room |
| Membership.Worker.RoomRemove | servers/zig/server.zig:283-293 | removal swaps the last member in and corrects its index; a connection without a valid index is left alone |
| Membership.Worker.HandleJoin | servers/zig/server.zig:362-370 | a JOIN, first or not, moves the connection to the named room, nobody else changes place, and the global index invariant is kept |
| Membership.Worker.CloseConn | servers/zig/server.zig:393-400 | a close removes the connection from its room; everyone else stays in place |
| Membership.Worker.ListIsSet | servers/odin/main.odin:176-190 | under the index invariant the list of a room is the set of open connections in it, without repetition |
| Membership.Run | servers/zig/server.zig:278-293 | after any run of accepts, JOINs and closes, each room lists exactly the open connections whose last JOIN named it |
| DartInbound.Conn.AppendFrom | servers/dart-pool/server.dart:126-137 | growing by doubling and copying appends exactly the given bytes |
| DartInbound.Conn.Consume | servers/dart-pool/server.dart:140-144 | shifting within the same array drops exactly the consumed prefix |
| DartInbound.Conn.ParseFrames | servers/dart-pool/server.dart:333-347 | the loop over a byte array dispatches what the reassembly says, and returns how much it used |
| DartInbound.Conn.OnReadable | servers/dart-pool/server.dart:396-419 | from any buffered remainder and any reads, the mix of parse-in-place and append-then-parse gives the dispatches, the closed flag and the remainder of the plain reassembly |
| DartInbound.ChunksUpTo | servers/dart-pool/server.dart:396-419 | a readiness event takes every chunk up to the first answer that is not a read of 1024 bytes or more, with that one's bytes, and fails if and only if that answer throws |
| DartOutbound.Conn.Send | servers/dart-pool/server.dart:260-277 | a frame goes to the socket, as far as one write takes it, or behind the queue, whole and in order; accepted and queued bytes stay the concatenation of all frames, compaction copies at most what the kernel accepted, and growth at most the capacity |
| DartOutbound.Conn.Append | servers/dart-pool/server.dart:149-169 | compaction, reset and doubling keep the queued bytes and append the new ones, within the same cost bounds |
| DartOutbound.Conn.Flush | servers/dart-pool/server.dart:236-254 | draining goes on exactly until the window is empty, a write takes nothing or fails, keeps the queue and its cost bounds, and write events are wanted exactly while bytes are queued |
| DartOutbound.DrainSends | servers/dart-pool/server.dart:236-254 | what the answers accept before the first that throws or takes nothing is sent, up to all that is queued; it is a failure if and only if something is left and that answer throws |
| Pids.IdsDistinct | servers/dart-pool/server.dart:195-202 | however calls interleave over the workers, no id is given out twice and none is 0, while the counters stay below 2^32 |
| Pids.Run | servers/dart-pool/server.dart:198-202 | workers called in any order give out exactly the ids that the previous statement is about |
| Positions.WrappingIsInvisible | servers/ocaml/main.ml:116-134 | after any joins, moves, leaves and ticks, servers that wrap positions at every tick and servers that cut them only in the snapshot send the same bytes, however they keep the tick number |
| Positions.PoliciesInUse | servers/clojure/server.clj:109-122 | the overflow policies of go, ocaml and clojure are instances of it, and the first is the tick of the room model |
| SendTimes.AdvanceFires | loadgen-odin/main.odin:427-430 | a send uses up exactly one of the sends its lateness allows, moves the deadline on by an interval or more, and leaves it within one interval of the clock |
| SendTimes.FiresBound | loadgen-odin/main.odin:427-430 | a pass sends at most three times on one connection, three times exactly when it was exactly two intervals late, and at all exactly when it was due |
| RingOrder.FireKeepsSorted | loadgen-odin/main.odin:16-19 | a send keeps a sorted ring sorted if and only if it is the only entry or the last entry is not later than the deadline that goes to the back |
| RingOrder.JoinKeepsSorted | loadgen-odin/main.odin:249-253 | a join never breaks the order of a sorted ring, since no deadline is more than one interval away |
| RingOrder.PassKeepsSorted | loadgen-odin/main.odin:421-431 | a send pass over any sorted ring leaves it sorted if and only if nothing was due; or the head does not snap and the ring spans at most one interval; or the head snaps and every other entry snaps too, is due just now or is not due |
| RingOrder.PassKeepsCyclicSorted | loadgen-odin/main.odin:421-431 | for a ring that is sorted and spans at most one interval: a pass leaves it sorted if and only if none of it snaps or all of it does |
| RingOrder.FireKeepsCyclic | loadgen-odin/main.odin:134-135 | in step means sorted and spread over at most one interval: a send keeps a ring in step if and only if it is the only entry, it did not snap, or the next entry is not overdue |
| RingOrder.JoinKeepsCyclic | loadgen-odin/main.odin:249-253 | a join keeps a ring in step if and only if no send is overdue at that moment |
| RingOrder.RingNotAlwaysSorted | loadgen-odin/main.odin:134-135 | inputs for which a send after a join, and a whole send pass, unsort a sorted ring, the latter by the full two intervals |
| SendTimes.NewestIs | loadgen-odin/main.odin:227-228 | a slot of the send-time ring belongs to the sequence number that is asked for exactly while fewer than 256 newer ones were stamped |
| SendTimes.SlotTimeOf | loadgen-odin/main.odin:264-265 | what the slot of a number holds after any sends: the send time of the newest number that maps to it, and so its own while fewer than 256 newer ones were stamped |
| Sched.Client.Stamp | loadgen-odin/main.odin:226-228 | stamping keeps every slot at the time of the newest sequence number that maps to it, also when the number wraps |
| Sched.Client.SentAt | loadgen-odin/main.odin:264-266 | the slot read for an echoed sequence number holds that move's send time while fewer than 256 newer ones were stamped, and a newer one's otherwise |
| Sched.Ring.Push | loadgen-odin/main.odin:142-145 | with room left, a modular push appends and overwrites no live entry |
| Sched.Ring.Pop | loadgen-odin/main.odin:146-151 | a pop takes the oldest entry |
| LoadGen.Worker.HandleJoined | loadgen-odin/main.odin:246-253 | the first acknowledgement puts a connection into the schedule one interval from now, a later one only renames it |
| LoadGen.Worker.FireHead | loadgen-odin/main.odin:423-430 | a dead head leaves the ring for good; a live one sends once and goes to the back with its next deadline, and the accounts still balance |
| LoadGen.Worker.SendPass | loadgen-odin/main.odin:421-431 | the pass ends for any lateness; each live connection sends as often as its lateness allows less what it could still send, at most three times, a dead or unjoined one never; a dead head that is due is dropped and a dead one that is not ends the pass; afterwards nothing queued is two intervals overdue |
| Schedule.PassAlive | loadgen-odin/main.odin:421-431 | with nobody dead the deadlines in the ring become those of the pass that the sortedness results are about |
| LoadGen.Worker.HandleEvents | loadgen-odin/main.odin:393-418 | after the events of a wakeup, who is dead, who has joined and the ring are what the fold of these events gives |
| LoadGen.Worker.Run | loadgen-odin/main.odin:373-432 | over any run of wakeups, failures, acknowledgements and send passes, who is dead, who has joined and when, how often everyone sent, every deadline and the ring are those of the fold of the turns; and every joined connection not yet dropped is queued exactly once and nothing else is, with bounded disorder |
| Schedule.RunFlags | loadgen-odin/main.odin:373-432 | after any run a connection is dead exactly when it was or a failure was reported, and joined exactly when it was or an acknowledgement came while it was alive |
| LoadGen.Worker.Schedule | loadgen-odin/main.odin:427-430 | after a pass, sends made plus time lost to snap-forwards cover the time since joining up to three intervals, for every live connection |
| LoadGen.Worker.Accounts | loadgen-odin/main.odin:226-240 | the deadline is the join time plus one interval per send made and one more plus the slack of snap-forwards; nobody is ahead of its rate; the worker's counters are the sums over its connections of all sends and of those after warm-up; and the ring never fills |
| Histogram.Hist.Total | loadgen-odin/main.odin:65-69 | the sum of the buckets is the number of samples |
| Histogram.Hist.Percentile | loadgen-odin/main.odin:71-81 | the result is the first bucket up to which there are as many samples as the rank of the quantile; none for an empty histogram |
| Histogram.Hist.Merge | loadgen-odin/main.odin:83-85 | bucketwise addition gives the histogram of both sample sets together |
| Histogram.PercentileMonotone | loadgen/main.go:58-79 | a higher quantile is in no lower bucket, and how the samples were spread over workers or ordered does not change the bucket |
| Histogram.PercentileRank | loadgen/main.go:62-79 | of n samples more than p*n - 1 lie up to the bucket of the p-quantile, at most p*n - 1 below it unless it is bucket 0, and then some sample lies in it |
| Measure.Meter.HandleSnapshot | loadgen-odin/main.odin:254-281 | a snapshot that echoes one of the last 256 moves is measured against the send time of that very move, an older echo against the newest move in its slot, once, and only after warm-up; one that echoes nothing is only counted |
| Measure.MeasuredIs | loadgen-odin/main.odin:264-276 | a sample is taken if and only if the move was sent, warm-up is over and time has passed; its window is the second after warm-up in which it falls, and its bucket that of the time since the send |
| Measure.InWindowIs | loadgen-odin/main.odin:271-274 | a window has exactly the samples of its second, as often as they were taken |
| Measure.MergeAll | loadgen-odin/main.odin:574-585 | the merged histogram is that of all workers' samples, each merged window that of all samples taken in it, and the merged counters of moves, moves after warm-up, snapshots and measurements are the totals, the last one the number of samples |
| Measure.Report | loadgen-odin/main.odin:629-636 | the printed quantile is that of all samples of all workers |
| EndToEndSafety.StepInv | servers/go-epoll/main.go:283-378 | every step of clients, kernel and worker keeps the invariant of the whole system |
| EndToEndSafety.ClientObserves | servers/go-epoll/main.go:283-405 | in every reachable state a client has parsed an acknowledgement with its own id first, then only snapshots of strictly increasing ticks however many were shed, echoing its own moves in order and none it has not sent; and the slot of an echoed move holds the time at which that move was sent while fewer than 256 newer ones were |
| EndToEndSafety.SnapshotSays | loadgen-odin/main.odin:254-283 | in a snapshot of distinct players the client of any member decodes the tick and its own last sequence number |

## Left out

- Sockets, epoll and timer calls, accept loops, threads, goroutines and isolates: only their answers and interleavings appear.
- The content of the zig, odin and Dart servers' verdict on a frame: in the reassembly statements, whether a handler closes the connection is an arbitrary predicate of the frames dispatched so far. For the epoll reactor it is the handler's own (`Lists.Rejects`).
- ClosedWrites.ClosedIsWritten: the descriptor of a closed connection may by then belong to another one; whose bytes a write on it becomes is not modelled, only that the write is made, and any answer to it is allowed.
- Streams.OpenIsSpoken: player ids come from a counter shared by all workers, and which of them a JOIN gets is a parameter of the event.
- Reachability of a buffer that is stuck in the channel of a writer that has exited: it stays counted and is never reused, and nothing says that it returns.
- The 32-bit width of the pooled server's reference count, and 64-bit widths elsewhere: a count is bounded by the number of connections, a 63-bit position by the number of ticks.
- A JOIN payload shorter than five bytes in the go and go-pool servers: the slice access panics there.
- PoolRefinement.SameBytesOnEverySocket: the writers' sends are at the grain of byte runs handed to the socket; what the kernel does with them afterwards is not modelled.
- EndToEndSafety.ClientObserves: one JOIN per client, 32-bit counters that do not wrap, and at most 65535 members in a room at each of its ticks; the dispatch of client frames by the server is one step per frame, which the framing results justify for byte streams.
- Membership.Run: the kernel reports events of open connections only; positions and outbound queues of the zig and odin servers are not part of it.
- The odin server does not reset the index of a removed connection, where zig sets it to -1; both overwrite it on the next JOIN, and the model follows zig.
- DartOutbound.Conn.Send: a connection that the write path closes stays in its room until the read side notices; that the member list of the Dart server still holds it is not modelled.
- The tick pacing of the zig, odin and Dart loops: the same snap-forward rule as in the send schedule, for a single deadline.
- Pids.IdsDistinct: nothing is said beyond the first wrap of a counter.
- The floating-point mapping from a latency to its bucket and back, rounding of quantile ranks, stability statistics and output: a bucket index is a parameter, a quantile is a real number.
- The connect phase of the odin load generator, its stop at the deadline, and the wait it passes to epoll.
- The unsharded load generator's goroutines and atomics: its histogram is the one modelled, filled by a single worker.
- The swift, rust, python, lua, elixir and unpooled Dart servers, the runner and plotting scripts, argument parsing and address parsing.
