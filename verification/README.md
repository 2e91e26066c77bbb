# EasyChat: a verified model

EasyChat is a chat room on a small reactor library. A server runs one event loop per thread; each loop waits in
epoll, dispatches the ready channels, then runs the functors other threads queued for it. Connections are accepted
on the main loop, handed to the io loops in turn, and on their way out hop from the io loop to the main loop and
back. On top, the chat server keeps two maps between names and connections, and every client keeps a replica of the
list of names, driven by join and leave notices in a hand-written text format.

This project models these parts and proves what holds of them over every input, every run and every interleaving:

- **Bytes** (`Bytes.dfy`): C strings, `QString::split`, `QList::indexOf` and `removeOne` on byte sequences.
- **The byte buffer** (`BufferSpec.dfy`, `Buffer.dfy`): the two-index vector, in place, refining a plain byte queue.
- **The poller** (`PollerSpec.dfy`, `Poller.dfy`): channels, their index machine and the kernel's interest set.
- **The reactor** (`EventLoop.dfy`, `Reactor.dfy`): the functor queue as one thread sees it, and the same queue with
  any number of producers, every push, flag test, eventfd write and swap a step of its own.
- **Connections** (`ConnectionSpec.dfy`, `ConnectionProofs.dfy`, `ConnectionTheorems.dfy`, `ConnectionLaws.dfy`,
  `TcpConnection.dfy`): the output stream, the input stream, the level callbacks, shutdown and the order of callbacks,
  over every run, and what each handler does by its effects.
- **The life of connections across loops** (`LifecycleSpec.dfy`, `LifecycleProofs.dfy`, `Lifecycle.dfy`): accepting,
  dispatching, closing, removing and destroying, with the chat server's shared lock taken and released step by step;
  and the sends that take no lock (`PrivateSends.dfy`, `LateSends.dfy`).
- **The server's bookkeeping** (`ThreadPoolSpec.dfy`, `ThreadPool.dfy`, `TcpServerSpec.dfy`, `TcpServer.dfy`): round
  robin, connection names, the map of connections.
- **The chat** (`Protocol.dfy`, `ServerSpec.dfy`, `ChatServer.dfy`, `ClientSpec.dfy`, `ClientWidget.dfy`, `RosterView.dfy`,
  `RosterSystem.dfy`): the text formats read back at the other end, the two maps, the client's rows, and the agreement
  of every client's roster with the server's, even where direct sends overtake queued ones.

A class with mutable fields models each object the program updates in place; its methods are proved equal to
functions on values, and the properties are proved of those functions over whole runs. System calls are parameters:
what `readv` delivered, how much `write` took or the error it gave, what `epoll_wait` reported.

## Where the code and its intent differ

The model follows the code.

- `EnsureWriteableBytes` leaves the 8 reserved bytes out of its test, so for an 8-wide window of lengths `Append`
  copies past the vector (`BufferSpec.EnsureRoom`, `BufferSpec.FreshBufferOverruns`); with the reserved bytes counted
  the room is always there (`BufferSpec.CorrectedEnsureRoom`). A connection in the model raises `overrun` at that
  moment and stops; `ConnectionTheorems.SendOverrunsExactly` and `ConnectionTheorems.ReadOverrunsExactly` say when that
  is, `ConnectionTheorems.OverrunHappens` that it happens.
- `RetriveAsString` moves the read index before it reads. It is right exactly as `BufferSpec.AsStringExact` says; the
  chat server's use is right (`BufferSpec.AllAsString`).
- `Shutdown` sets `kDisconnected`, so the branch of `HandleWrite` for `kDisconnecting` is never taken
  (`ConnectionTheorems.StateMonotone`) and output still buffered is not followed by a shutdown
  (`ConnectionTheorems.ShutdownExact`). `Socket::ShutdownWrite` in fact shuts the reading side down.
- A shutdown asked for on another thread is queued. If the connection is closed before it runs, the mask is empty,
  `ShutdownInLoop` takes that for drained and shuts the socket with accepted bytes still buffered: exactly then
  (`ConnectionTheorems.CutsOffExactly`), and it happens (`ConnectionTheorems.UndrainedShutdown`).
- `SendPrivateMsg` looks its destination up and sends without the lock. A send it queues is run on a destroyed
  connection exactly when it was queued after the connection left the server's map (`PrivateSends.PrivateSendExact`),
  and it happens (`LateSends.LateSendHappens`); what broadcasts send always comes in time
  (`Lifecycle.SendsPrecedeDestroy`).
- A hang-up that carries EPOLLPRI without EPOLLIN closes the connection and then reads from it
  (`ConnectionTheorems.HangupWithPriExact`); the runs leave such dispatches out.
- An empty name is "not logged in": a login under it breaks the maps (`ServerSpec.LoginInverse`). The login dialog
  does not let it through, and the runs leave it out.
- `SendPrivateMsg` looks for the second separator without looking at the end of the string
  (`Protocol.ScanTerminates`). The model stops there and sets `wild`.
- A first byte that is neither tag leaves the input buffer as it is, so the next read is appended to it.
- `UserLogin` tests the name outside the lock under which it inserts it. The maps and the roster are modelled with
  each handler as one step; the ordering of sends and destruction with each acquisition of the lock as a step.

## Model

| member | source | states |
|---|---|---|
| BufferSpec.Ensure | server/src/m_buffer.cpp:5-15 | making room, by growth or by compaction, changes neither the readable bytes nor the invariant 8 <= reader <= writer <= size |
| BufferSpec.Append | server/include/m_buffer.h:48-52 | outside the window an append concatenates the content |
| BufferSpec.Retrive | server/include/m_buffer.h:29-37 | retrieving drops a prefix of the content; too long a request drops all of it |
| BufferSpec.ReadFd | server/src/m_buffer.cpp:17-41 | a read concatenates what readv delivered, spilled through the side buffer or not, and never moves a read index that stands at the start |
| BufferSpec.EnsureRoom | server/src/m_buffer.cpp:6-13 | there is room for `len` bytes afterwards if and only if `len` is outside the 8-wide window (slack - 8, slack] |
| BufferSpec.CorrectedEnsureRoom | server/src/m_buffer.cpp:5-15 | with the reserved bytes counted in the test there is room for every length, and the content is kept |
| BufferSpec.FreshBufferOverruns | server/include/m_buffer.h:13-19 | the first failing call: 1025 bytes into a fresh buffer leave room for 1024 only |
| BufferSpec.SpillWindow | server/src/m_buffer.cpp:36-39 | with the read index at the start, a spill overruns if and only if it is of 1 to 8 bytes |
| BufferSpec.AsStringExact | server/include/m_buffer.h:41-44 | RetriveAsString returns the first `len` readable bytes, whatever they are, if and only if it is asked for none, or for all with the read index at the start |
| BufferSpec.AllAsString | server/include/m_buffer.h:39-44 | taking everything with the read index at the start returns the content and empties the buffer |
| BufferSpec.RefinesQueue | server/include/m_buffer.h:29-52 | over every run of appends and retrievals outside the window the content is that of a plain byte queue |
| Buffers.Buffer.constructor | server/include/m_buffer.h:16-19 | a new buffer is the fresh empty one |
| Buffers.Buffer.Retrive | server/include/m_buffer.h:29-35 | moves the indices as the specification says, the vector untouched |
| Buffers.Buffer.RetriveAll | server/include/m_buffer.h:37 | both indices go back to the start |
| Buffers.Buffer.RetriveAsString | server/include/m_buffer.h:41-44 | returns the bytes behind the new read index, or reports that they would leave the vector |
| Buffers.Buffer.RetriveAllAsString | server/include/m_buffer.h:39 | with the read index at the start, returns exactly the content |
| Buffers.Buffer.EnsureWriteableBytes | server/src/m_buffer.cpp:5-15 | the vector and indices in place are those of the specification |
| Buffers.Buffer.Compact | server/src/m_buffer.cpp:9-13 | the overlapping forward copy moves the readable bytes down unharmed |
| Buffers.Buffer.Append | server/include/m_buffer.h:48-52 | succeeds if and only if outside the window, and then concatenates |
| Buffers.Buffer.ReadFd | server/src/m_buffer.cpp:17-41 | stores what readv delivered; fails if and only if the spill falls in the window; an error changes nothing |
| PollerSpec.StepAgrees | server/src/epollpoller.cpp:43-99 | a mask change or removal that finds its fd free of other known channels keeps poller and kernel in agreement, touches no other channel, and is not refused by the kernel |
| PollerSpec.StepAgreesExactly | server/src/epollpoller.cpp:69-99 | from agreement, any call keeps it if and only if the poller knows no other channel with the same fd |
| PollerSpec.RunAgrees | server/src/epollpoller.cpp:69-99 | over every sequence of mask changes and removals that uses its fds one after the other, reused after a removal or not, the interest set is exactly the added channels with their current masks, the map exactly the channels not new, and every epoll_ctl call is legal |
| PollerSpec.LegalIffDistinct | server/src/epollpoller.cpp:43-57 | every sequence of calls in whatever order is legal if and only if the fds are distinct |
| PollerSpec.EpollCtlExact | server/src/epollpoller.cpp:43-57 | the kernel takes an ADD of an absent fd and a MOD or DEL of a present one, with the channel's current mask, and refuses all others unchanged |
| PollerSpec.ReadingApart | server/include/channel.h:41-49 | reading is switched on and off without touching writing |
| PollerSpec.WritingApart | server/include/channel.h:51-59 | writing is switched on and off without touching reading |
| PollerSpec.UpdateOn | server/src/epollpoller.cpp:69-88 | a mask change of a channel that owns the entries under its fd leaves it in agreement and changes no entry under another fd |
| PollerSpec.RemoveOn | server/src/epollpoller.cpp:90-99 | a removal of such a channel leaves it unknown to poller and kernel and changes no entry under another fd |
| Pollers.Channel.constructor | server/src/channel.cpp:8-9 | a new channel has no events and index new |
| Pollers.Channel.EnableReading | server/include/channel.h:41-44 | the poller takes the step for the widened mask |
| Pollers.Channel.DisableReading | server/include/channel.h:46-49 | the poller takes the step for the narrowed mask |
| Pollers.Channel.EnableWriting | server/include/channel.h:51-54 | the poller takes the step for the widened mask |
| Pollers.Channel.DisableWriting | server/include/channel.h:56-59 | the poller takes the step for the narrowed mask |
| Pollers.Channel.DisableAll | server/include/channel.h:61-64 | the poller takes the step for the empty mask |
| Pollers.Channel.Remove | server/src/channel.cpp:59 | the poller takes the removal step |
| Pollers.EpollPoller.UpdateChannel | server/src/epollpoller.cpp:69-88 | the whole state of poller, channel and kernel after the call, over the three indices |
| Pollers.EpollPoller.RemoveChannel | server/src/epollpoller.cpp:90-99 | the whole state after the call; the kernel is asked only for an added channel |
| Pollers.EpollPoller.Update | server/src/epollpoller.cpp:43-57 | one epoll_ctl call: ADD needs the fd absent, MOD and DEL present |
| Pollers.EpollPoller.HasChannel | server/src/poller.cpp:8-11 | whether the map holds this very channel under its fd |
| Pollers.EpollPoller.FillActiveChannels | server/src/epollpoller.cpp:59-67 | each reported channel once, in order, with the events reported for it |
| EventLoops.BumpAdds | server/src/event_loop.cpp:90-96 | writes to the eventfd add up one at a time, as far as its counter goes |
| EventLoops.EventLoop.QueueInLoop | server/src/event_loop.cpp:80-88 | appends to the queue; wakes the loop exactly when called from elsewhere or while functors run |
| EventLoops.EventLoop.RunInLoop | server/src/event_loop.cpp:72-78 | runs at once on the loop thread, else queues and leaves the eventfd readable; the counter grows only as its wake-ups say |
| EventLoops.EventLoop.WakeUp | server/src/event_loop.cpp:90-96 | adds one to the eventfd counter, up to its maximum |
| EventLoops.EventLoop.HandleRead | server/src/event_loop.cpp:42-49 | empties the eventfd counter |
| EventLoops.EventLoop.DoPendingFunctors | server/src/event_loop.cpp:110-123 | runs exactly the functors pending at the swap, in order, even when they queue more; what they queued is pending afterwards and the eventfd counts it |
| EventLoops.EventLoop.RunHandlers | server/src/event_loop.cpp:58-60 | the handlers run in order; what they queue is pending and wakes nobody |
| EventLoops.EventLoop.Turn | server/src/event_loop.cpp:56-61 | one turn of the loop runs the handlers, then all that was pending before or queued by them; a wake-up is read, so that afterwards the counter holds exactly what this turn queued late: the next poll does not block if anything is pending, and is kept from blocking by nothing else |
| Reactor.StepInv | server/src/event_loop.cpp:42-123 | every step of loop and producers keeps the order of functors, the wake-up condition and the bounds of the batch |
| Reactor.NoLostWakeup | server/src/event_loop.cpp:80-96 | in every interleaving, a loop about to poll with functors pending finds the eventfd readable or some producer between its push and its write |
| Reactor.ExactlyOnceFifo | server/src/event_loop.cpp:80-123 | executed functors, rest of the batch and pending functors together are always the history of pushes |
| Reactor.TurnDrains | server/src/event_loop.cpp:51-63 | everything pushed before a poll returned has been executed when the loop is back at the poll |
| Reactor.BatchIsExact | server/src/event_loop.cpp:110-123 | one call runs exactly the functors pending at its swap; what anyone pushed meanwhile is pending at its end |
| Reactor.WokenReads | server/src/event_loop.cpp:42-60 | a poll that found the eventfd readable is followed by a read that leaves it at zero before the pending functors are taken |
| Reactor.ReadsOnlyWoken | server/src/event_loop.cpp:42-49 | the eventfd is read only in a turn whose poll found it readable |
| ConnectionProofs.CreatedInv | server/src/tcp_connection.cpp:11-30 | a new connection meets the invariant |
| ConnectionProofs.PerformInv | server/src/tcp_connection.cpp:37-179 | every call of every kind, with every result of the system calls in it, keeps the invariant: stream, mask, input, levels, write-completes, trace and shutdown |
| ConnectionProofs.PerformAllInv | server/src/tcp_connection.cpp:37-179 | so does every run |
| ConnectionTheorems.OutputStreamExact | server/src/tcp_connection.cpp:51-73 | over every run, partial write and error, bytes written followed by bytes buffered are the accepted messages in order, all of them unless a buffer overran and a prefix of them even then; until closed, the connection waits for the socket if and only if something is buffered |
| ConnectionTheorems.SendAcceptsWhole | server/src/tcp_connection.cpp:133-173 | a send accepts all of its message or none, none exactly when disconnected or, with nothing buffered, told that the peer is gone; with nothing buffered exactly what the socket takes is written and exactly the rest buffered, else all of it is buffered behind what was there |
| ConnectionTheorems.HandleWriteExact | server/src/tcp_connection.cpp:51-73 | a write-ready event writes exactly what the socket takes of the buffer, nothing on an error, and leaves exactly the rest buffered |
| ConnectionTheorems.SendOverrunsExactly | server/src/tcp_connection.cpp:163-168 | a send leaves the vector if and only if what it has to buffer falls in the buffer's window |
| ConnectionTheorems.LevelsExact | server/src/tcp_connection.cpp:55-64 | the high-water callbacks queued are, with their lengths and in order, the upward crossings of the mark by the buffered length; write-complete was queued, and the socket of a connection not closed yet shut down, only with every accepted byte on the wire |
| ConnectionTheorems.SendCompleteExact | server/src/tcp_connection.cpp:144-150 | a send queues write-complete if and only if the socket took the whole message at once |
| ConnectionTheorems.WriteCompleteExact | server/src/tcp_connection.cpp:55-61 | a write-ready event queues write-complete if and only if it empties the buffer |
| ConnectionTheorems.ShutdownExact | server/src/tcp_connection.cpp:110-115 | a shutdown reaches the socket if and only if the connection is up with nothing buffered |
| ConnectionTheorems.CutsOffExactly | server/src/tcp_connection.cpp:110-115 | of all calls in all runs, the socket is shut down with accepted bytes unwritten if and only if a ShutdownInLoop queued from another thread runs after the close with output still buffered |
| ConnectionTheorems.UndrainedShutdown | server/src/tcp_connection.cpp:175-179 | a run in which that happens: one byte waits, another thread shuts down, the peer hangs up, the queued shutdown runs |
| ConnectionTheorems.NothingAfterShutdown | server/src/tcp_connection.cpp:133-143 | once disconnected and not waiting for the socket, no byte is written and no message accepted in any further run |
| ConnectionTheorems.ShutdownIsQuiet | server/src/tcp_connection.cpp:175-179 | after a shutdown of the socket the connection is in that condition |
| ConnectionTheorems.InputConserved | server/src/tcp_connection.cpp:37-49 | over every run, what the message callbacks took followed by what is readable is what readv delivered, all of it unless a buffer overran and a prefix of it even then; the read index stays at the start |
| ConnectionTheorems.ReadOverrunsExactly | server/src/m_buffer.cpp:30-39 | a read of a live connection overruns if and only if it spills 1 to 8 bytes |
| ConnectionTheorems.OverrunHappens | server/src/m_buffer.cpp:5-15 | two calls from the start overrun either buffer: 1025 bytes to send to a busy socket, or to read |
| ConnectionTheorems.StateMonotone | server/src/tcp_connection.cpp:75-131 | no call moves the state back from disconnected to connected to connecting, and none enters disconnecting |
| ConnectionTheorems.StateOnward | server/src/tcp_connection.cpp:75-131 | between any two moments of any run the state only moves from connecting to connected to disconnected |
| ConnectionTheorems.LifecycleTrace | server/src/tcp_connection.cpp:37-131 | in every run the callbacks made are a prefix of one Up, any number of messages, Down, the close callback and the removal |
| ConnectionTheorems.NothingAfterDown | server/src/tcp_connection.cpp:75-131 | in every run: after Down neither message nor mask change, after the close callback only the removal, after that nothing; Up is not repeated |
| ConnectionTheorems.UpComesFirst | server/src/tcp_connection.cpp:117-122 | in every run, at every position from the first, a message, Down, close callback or removal has Up before it |
| ConnectionTheorems.CloseThenNoWrite | server/src/channel.cpp:30-55 | a dispatch that closes, by hang-up or end of file, is the close and nothing else, even if the socket is writable |
| ConnectionTheorems.HangupWithPriExact | server/src/channel.cpp:32-48 | from a live connection one dispatch keeps the callbacks in order if and only if it is not a hang-up with EPOLLPRI and without EPOLLIN, or its read fails or overruns |
| ConnectionTheorems.PollerFollows | server/src/channel.cpp:57-59 | replaying any orderly trace of a connection, whose fd no known channel has, into the poller: no call is refused, no other channel touched, the kernel watches it with its last mask exactly while it is live, the poller knows it until the removal |
| ConnectionTheorems.PollerFollowsRun | server/src/channel.cpp:57-59 | so for the trace of every run: the kernel watches the connection with its current mask if and only if that is not empty |
| ConnectionLaws.EstablishedExact | server/src/tcp_connection.cpp:117-122 | connected, reading, the owner told once; nothing else changes |
| ConnectionLaws.CloseExact | server/src/tcp_connection.cpp:75-84 | disconnected, nothing watched, the owner told, then the server; nothing else changes |
| ConnectionLaws.DestroyedRemoves | server/src/tcp_connection.cpp:124-131 | after any run the destruction removes the channel, and does nothing else |
| ConnectionLaws.DestroyedForgotten | server/src/channel.cpp:59 | replayed into a poller, after it neither the poller's map nor the kernel's set has the channel or its fd |
| ConnectionLaws.DestroyedWhileUp | server/src/tcp_connection.cpp:125-129 | a connection destroyed while connected goes down first, without the close callback |
| ConnectionLaws.DispatchOfWrite | server/src/channel.cpp:50-54 | a dispatch for writing writes exactly what the socket takes of the buffer |
| ConnectionLaws.DispatchReadsThenWrites | server/src/channel.cpp:44-54 | a dispatch for reading and writing writes what the read left buffered, unless it closed or overran |
| ConnectionLaws.DispatchOfRead | server/src/channel.cpp:32-48 | a dispatch for reading is the read handler, beside a hang-up too |
| ConnectionLaws.DispatchOfHangup | server/src/channel.cpp:32-36 | a hang-up with nothing to read closes; a dispatch for nothing changes nothing |
| ConnectionLaws.ReadExact | server/src/tcp_connection.cpp:37-41 | a read that delivers bytes adds them to the readable ones, calls the owner once, and hands over everything readable or nothing |
| ConnectionLaws.ReadEnds | server/src/tcp_connection.cpp:42-48 | a failed read changes nothing; end of file closes |
| ConnectionLaws.OwnSendExact | server/src/tcp_connection.cpp:100-104 | on the loop thread a send is accepted whole and written as far as the socket takes it if connected, and does nothing if not |
| ConnectionLaws.ShutdownRequests | server/src/tcp_connection.cpp:110-115 | a shutdown disconnects at once; the socket is shut then or by the queued functor, if nothing is buffered |
| ConnectionLaws.ActsInOrder | server/src/tcp_connection.cpp:40-41 | what the message callback asks of its connection is done in order, every part of it |
| ConnectionLaws.TwoSendsInOrder | server/src/tcp_connection.cpp:163-172 | with output waiting, two messages sent by the callback are buffered behind it, one after the other |
| TcpConnections.TcpConnection.constructor | server/src/tcp_connection.cpp:11-30 | a new connection is connecting, with two fresh buffers |
| TcpConnections.TcpConnection.SendInLoop | server/src/tcp_connection.cpp:133-173 | the whole state after a direct, partial, refused or buffered write |
| TcpConnections.TcpConnection.Send | server/src/tcp_connection.cpp:100-104 | on the loop thread: SendInLoop if connected, else nothing |
| TcpConnections.TcpConnection.HandleWrite | server/src/tcp_connection.cpp:51-73 | the whole state after a write-ready event |
| TcpConnections.TcpConnection.Shutdown | server/src/tcp_connection.cpp:110-115 | the whole state after a shutdown on the loop thread |
| TcpConnections.TcpConnection.ShutdownInLoop | server/src/tcp_connection.cpp:175-179 | the socket is shut down unless the connection waits for it |
| TcpConnections.TcpConnection.ConnectionEstablished | server/src/tcp_connection.cpp:117-122 | connected, reading, then the up callback |
| TcpConnections.TcpConnection.HandleClose | server/src/tcp_connection.cpp:75-84 | disconnected, nothing watched, then the down callback, then the close callback |
| TcpConnections.TcpConnection.ConnectDestroyed | server/src/tcp_connection.cpp:124-131 | a connected one closes first; then the channel is removed |
| TcpConnections.TcpConnection.HandleRead | server/src/tcp_connection.cpp:37-49 | the whole state after a read: message callback, close, or nothing on an error |
| TcpConnections.TcpConnection.HandleEvent | server/src/channel.cpp:30-55 | close, read and write handlers in the order of the dispatch |
| LifecycleProofs.StepInv | server/src/tcp_server.cpp:46-86 | every step of every loop thread keeps the invariant on queues, tasks, reported channels, sets and names |
| LifecycleProofs.PushOneInv | server/example/server.cpp:55-71 | a send queued under the shared lock keeps it, however far its connection's exit has come |
| LifecycleProofs.PushPrivateInv | server/example/server.cpp:137-140 | so does a private send, queued without the lock, whatever became of its connection since the look-up |
| LifecycleProofs.TestNameInv | server/example/server.cpp:83 | so does the test of a login's name, made without the lock after the roster was collected under it |
| LifecycleProofs.DoEraseInv | server/example/server.cpp:101-117 | the erasure under the exclusive lock keeps it: nobody is walking the names |
| LifecycleProofs.DoCloseCbInv | server/src/tcp_server.cpp:74-76 | the close callback keeps it, on the main loop and elsewhere |
| LifecycleProofs.RunRemoveInv | server/src/tcp_server.cpp:78-86 | the removal on the main loop keeps it |
| LifecycleProofs.AcceptInv | server/src/tcp_server.cpp:46-72 | accepting keeps it, established at once or by a functor |
| Lifecycle.SendsPrecedeDestroy | server/example/server.cpp:55-71 | in every run, every functor of a connection but the sends queued without the lock - every send queued by a broadcast in particular - runs before its ConnectDestroyed, which runs at most once |
| Lifecycle.NothingBehindDestroy | server/src/tcp_server.cpp:78-86 | in every reachable state only sends are queued beside a ConnectDestroyed, and those behind it were queued without the lock |
| PrivateSends.HistoryGrows | server/src/event_loop.cpp:80-88 | what was queued on a loop once keeps its place in the loop's history, executed functors followed by queued ones |
| PrivateSends.HistoryExact | server/src/tcp_server.cpp:78-86 | a loop's history holds the ConnectDestroyed of exactly its connections that left the server's map |
| PrivateSends.PrivateSendExact | server/example/server.cpp:137-140 | a send queued by a private message, without the lock, runs before its connection is destroyed if and only if the connection was in the server's map when it was queued |
| LateSends.LateSendHappens | server/example/server.cpp:137-140 | a run in which it was not: the destination leaves between the look-up and the push, and the send runs on a destroyed connection |
| Lifecycle.PushedWhileAlive | server/example/server.cpp:55-71 | when a broadcast queues a send, its connection is in the server's map and its ConnectDestroyed is not queued anywhere |
| Lifecycle.NoStaleDispatch | server/src/event_loop.cpp:55-62 | in every reachable state a channel reported and not yet dispatched is in the poller's map, the kernel's set and the server's map |
| Lifecycle.LeavesInFunctorPhase | server/src/tcp_connection.cpp:124-131 | a channel leaves the poller's map only by its ConnectDestroyed, in the functor phase of its own loop with nothing left to dispatch |
| Lifecycle.HeldUntilDestroyed | server/src/tcp_server.cpp:46-86 | a connection is not destroyed if and only if the server's map or a queued ConnectDestroyed holds it, so the tie of its channel can be locked |
| Lifecycle.NamesForgotten | server/example/server.cpp:101-118 | once its close callback has run, no map of the chat server speaks of a connection again |
| Lifecycle.RunOnward | server/src/tcp_connection.cpp:75-131 | over every run a connection only moves on from fresh to up, closing, removing, doomed, destroyed, on one loop |
| Lifecycle.LockIsFreed | server/example/server.cpp:55-118 | no deadlock on the lock: a thread waiting for it can take it, or a thread that holds it shared, to collect a roster or to send, can go on |
| Lifecycle.QueuedElsewhere | server/src/tcp_connection.cpp:100-108 | in every run a send is queued only for a connection of another loop |
| Lifecycle.ChecksDecide | server/src/tcp_connection.cpp:100-108 | a send is queued if and only if its connection was found connected and is of another loop |
| Lifecycle.TestDecides | server/example/server.cpp:83-98 | a login goes on to be announced and inserted if and only if the test found its name free |
| ThreadPoolSpec.RoundRobin | server/src/event_loop_thread_pool.cpp:29-39 | from any point on, the k-th connection goes to the k-th loop after the next one, around; without loops to the base loop |
| ThreadPoolSpec.ExactLoad | server/src/event_loop_thread_pool.cpp:29-39 | the exact number of connections each loop got out of any number |
| ThreadPoolSpec.FairAssignment | server/src/event_loop_thread_pool.cpp:29-39 | no loop is ever ahead of another by more than one connection |
| ThreadPools.EventLoopThreadPool.constructor | server/src/event_loop_thread_pool.cpp:4-10 | a new pool has only its base loop |
| ThreadPools.EventLoopThreadPool.Start | server/src/event_loop_thread_pool.cpp:14-26 | the loops of the new threads are appended in order |
| ThreadPools.EventLoopThreadPool.GetNextLoop | server/src/event_loop_thread_pool.cpp:29-39 | the next loop, and the index moved on modulo the number of loops |
| ThreadPools.EventLoopThreadPool.GetLoops | server/src/event_loop_thread_pool.cpp:41-47 | the loops in order, or the base loop alone: every loop a connection may be given to, never none |
| TcpServerSpec.DecimalInjective | server/src/tcp_server.cpp:49 | decimal renderings of different ids differ |
| TcpServerSpec.SuffixExact | server/src/tcp_server.cpp:48-49 | the text snprintf leaves is all of it, or its first 63 bytes |
| TcpServerSpec.NamesNeverCollide | server/src/tcp_server.cpp:48-51 | the names of all connections an int can number are distinct if and only if the address has at most 52 bytes, so that snprintf cuts nothing off |
| TcpServerSpec.ConnectionsExact | server/src/tcp_server.cpp:46-86 | over any history of accepts and removals the map is exactly the live connections, each under its own name and on its round-robin loop |
| TcpServers.TcpServer.constructor | server/src/tcp_server.cpp:11-26 | no connections, the first id is 1 |
| TcpServers.TcpServer.Start | server/src/tcp_server.cpp:39-44 | only the first call starts the threads and listens |
| TcpServers.TcpServer.Accept | server/src/tcp_server.cpp:46-72 | the whole state after NewConnection, and whether the connection is established at once |
| TcpServers.TcpServer.RemoveConnectionInLoop | server/src/tcp_server.cpp:78-86 | the entry under the connection's name is gone; ConnectDestroyed goes to the connection's own loop |
| Protocol.RosterRoundTrip | EasyChat.cpp:59-64 | the client reads back the names the server joined if and only if none holds a '+' and the empty ones, if any, come last |
| Protocol.DuplicateAgreement | EasyChat.cpp:61-70 | the client finds its own name more than once if and only if the server found it taken |
| Protocol.NoticeRoundTrip | EasyChat.cpp:179-190 | a join or leave notice delivers its name if and only if the name is free of the notice's tag byte |
| Protocol.ScanDest | server/example/server.cpp:122-125 | the scan loop returns destination and text, or reports that it runs off the end |
| Protocol.ScanTerminates | server/example/server.cpp:125 | the scan stays inside the message if and only if it holds a second separator |
| Protocol.ServerReads | server/example/server.cpp:120-134 | the server finds the destination and the text up to the first NUL, whatever padding the client sent |
| Protocol.ClientReads | EasyChat.cpp:155-177 | the recipient finds the true source and the text up to the first NUL or tag byte |
| Protocol.PrivateTwoHop | server/example/server.cpp:120-134 | through both hops the recipient gets the true source, and the original text if and only if it holds neither NUL nor separator |
| Protocol.GroupTwoHop | server/example/server.cpp:147-160 | the same for a group message, whose padding the server forwards |
| ServerSpec.LoginInverse | server/example/server.cpp:73-99 | a login of a nameless connection keeps the maps mutually inverse if and only if the name is not empty |
| ServerSpec.ExitInverse | server/example/server.cpp:101-118 | an exit keeps the maps inverse and removes exactly this connection from them |
| ServerSpec.SourceIsRegistered | server/example/server.cpp:126-143 | a connection has a name if and only if it is registered, under that very name: the lookups of SendPrivateMsg create no entry |
| ServerSpec.ReadInverse | server/example/server.cpp:162-173 | a message keeps the maps inverse if and only if it is not a login under the empty name |
| ServerSpec.ReadScope | server/example/server.cpp:162-173 | a message adds no connection but its own to the maps, and connects none |
| ServerSpec.LoginGetsRoster | server/example/server.cpp:73-82 | a connected newcomer is sent the roster with its own name last, whether or not the name is taken |
| ServerSpec.LoginAnswered | server/example/server.cpp:73-83 | read back, it is the registered names and the newcomer's, which is there more than once if and only if it is taken |
| ServerSpec.TakenRefused | server/example/server.cpp:96-98 | under a taken name nothing but the roster is sent, nobody is registered, and the connection is shut down |
| ServerSpec.NewAnnounced | server/example/server.cpp:83-95 | under a new name everyone else who is registered and connected gets the join notice, and nobody is shut down |
| ServerSpec.ExitAnnounced | server/example/server.cpp:101-118 | an exit of a registered user sends the leave notice to everyone else who is registered and connected, an exit of another to nobody |
| ServerSpec.UntakenExact | server/example/server.cpp:162-173 | a message stays in the input buffer if and only if its sender is registered and it has neither tag; it then changes and sends nothing |
| ServerSpec.WildExact | server/example/server.cpp:122-125 | the scan runs off the end if and only if a registered user's private message has no second separator |
| ServerSpec.AlwaysConsistent | server/example/server.cpp:22-37 | over every run the maps are mutual inverses and mention live connections only, none after its down callback |
| ServerSpec.PrivateDelivery | server/example/server.cpp:120-145 | a private message reaches the connection registered under the destination if it is connected and nobody else, with the true sender; the text arrives unchanged if and only if it holds neither NUL nor separator |
| ServerSpec.GroupDelivery | server/example/server.cpp:147-160 | a group message reaches every registered connected client under the true sender's name, with the text up to the first NUL or separator: all of it if and only if it holds neither |
| ChatServer.DeliverExact | server/src/tcp_connection.cpp:100-108 | everyone a handler sends to has one message more, behind those before; nobody else has |
| ChatServer.ChatRoomServer.Send | server/src/tcp_connection.cpp:100-108 | dropped unless the connection is connected |
| ChatServer.ChatRoomServer.OnConnection | server/example/server.cpp:22-29 | the whole state after the up or the down callback |
| ChatServer.ChatRoomServer.IsNewClient | server/example/server.cpp:31-33 | whether the connection has no name; an absent entry is created |
| ChatServer.ChatRoomServer.SendToAll | server/example/server.cpp:55-71 | the walk over the names sends once to every registered connected client but the one left out |
| ChatServer.ChatRoomServer.BroadcastNoSelf | server/example/server.cpp:55-62 | one message to every registered connected client but this one |
| ChatServer.ChatRoomServer.Broadcast | server/example/server.cpp:64-71 | one message to every registered connected client |
| ChatServer.ChatRoomServer.UserLogin | server/example/server.cpp:73-99 | maps, mail and shutdown after a login, under a new or a taken name |
| ChatServer.ChatRoomServer.CollectNames | server/example/server.cpp:74-80 | every registered name once, in the order of the walk, joined as the roster text |
| ChatServer.ChatRoomServer.UserExit | server/example/server.cpp:101-118 | maps and mail after an exit, with or without a name |
| ChatServer.ChatRoomServer.SendPrivateMsg | server/example/server.cpp:120-145 | who gets which message; both lookups by operator[] find an entry |
| ChatServer.ChatRoomServer.SendGroupMsg | server/example/server.cpp:147-160 | every registered connected client gets the message |
| ChatServer.ChatRoomServer.ReadCb | server/example/server.cpp:162-173 | maps and mail after any message, and whether the input buffer was emptied |
| ClientSpec.LoginAligned | EasyChat.cpp:73-100 | after the roster arrived there is one row more than names, the group row first, row i + 1 for name i |
| ClientSpec.LoginExact | EasyChat.cpp:63-71 | the client refuses exactly the rosters in which the server joined a taken name, and else shows the names joined |
| ClientSpec.JoinedAligned | EasyChat.cpp:188-202 | a join notice keeps rows and names together |
| ClientSpec.LeftAligned | EasyChat.cpp:179-187 | a leave notice does so if and only if the name is there; otherwise it takes the group row |
| ClientSpec.FlushFails | EasyChat.cpp:155-190 | a message is not taken apart if and only if it is empty or a private or group message with a single tag byte |
| ClientSpec.FlushKeeps | EasyChat.cpp:155-178 | messages without a join or leave tag touch neither names nor rows |
| ClientWidget.Widget.ReciveLogin | EasyChat.cpp:59-112 | closes if and only if the own name is there twice; the names are those of the roster, and unless closed the rows are set up |
| ClientWidget.Widget.FlushUi | EasyChat.cpp:142-204 | names and rows after any message, the text cleared; reports a split with too few parts |
| ClientWidget.Widget.Run | EasyChat.cpp:206-215 | over every sequence of receives names and rows are those of the messages flushed in order |
| RosterView.ReceiveOk | EasyChat.cpp:59-204 | receiving the next message keeps a client on course from what it shows to what is registered |
| RosterView.ReceiveAllOk | EasyChat.cpp:59-204 | receiving everything under way leaves exactly the registered connections on screen |
| RosterView.ReceivedIsFlushed | EasyChat.cpp:206-215 | while the client stays open, receiving messages is the receive loop flushing them in order |
| RosterSystem.StepOk | server/example/server.cpp:22-173 | every accept, message, exit, breakdown, queued send and receive keeps all clients on course that still hear the server |
| RosterSystem.RosterAgreement | server/example/server.cpp:73-118 | in every reachable state, whatever the loops, however direct sends overtook queued ones and whoever else lost its peer: a registered client that still hears the server, once it received what is under way, shows exactly the registered names, once each, with its rows in step |
| RosterSystem.RefusedCloses | server/example/server.cpp:81-98 | in every reachable state, a client whose login is refused is sent a roster that makes it close, and is shut down |
| RosterSystem.RowsAlwaysAligned | EasyChat.cpp:179-201 | at every reachable moment the rows are in step, and a leave notice next in line names someone on screen, so the group row is never removed |

## Left out

- Sockets, `accept4`, `readv`, `write`, `epoll_wait`, `epoll_ctl`, `eventfd` themselves: they are parameters and nondeterministic steps; socket options, addresses, timestamps and the logger are not modelled.
- `EPOLLERR` and `HandleError` only log, so they are not in the dispatch.
- `Channel::Tie`: the lock on the tied object is not a branch of `HandleEvent`; `Lifecycle.HeldUntilDestroyed` says that while a channel can be reported its connection is held.
- `Loop`'s quit flag, `Quit`, `~TcpServer`, `~EventLoop`: loops run for ever and the server is not torn down.
- Thread creation and the start-up handshake: every loop runs on its own thread from the beginning.
- Message framing: one receive is one message, as the code assumes; the client's 4096-byte receive buffer does not cut it.
- UTF-8 and `QString`: text is bytes, a `QString` comparison is a byte comparison.
- Qt widgets, cursors, fonts, translators and the other dialogs: of the client only names, rows, encoders and splitters are modelled.
- The regular expressions of the login dialog; of its guards the one against the empty name is used.
- Integer widths: sizes, ids and levels are unbounded; `TcpServerSpec.ConnectionsExact` covers the ids an `int` holds.
- Lifecycle.NamesForgotten: logins under the empty name are not steps of this machine; what they break is in `ServerSpec.LoginInverse`.
- Data races on the maps outside the lock: the handlers of `ServerSpec` and `RosterSystem` are single steps.
- `RosterSystem`: a connection whose peer is gone, or whose buffer overran, loses everything sent to it from then on, and nothing is said of what its client shows.
- `RosterSystem`: names hold no '+', no tag byte and no NUL, and are not empty; the text formats cannot carry others (`Protocol.RosterRoundTrip`, `Protocol.NoticeRoundTrip`).
- PrivateSends.PrivateSendExact: the two look-ups of a private message are one step, and what a send does to a connection destroyed or freed by then is not modelled.
- Lifecycle.NoStaleDispatch: one functor runs between two polls or many; that a loop runs whole batches is in `Reactor`, not repeated here.
- ConnectionTheorems.OutputStreamExact: a run stops changing at the overrun of a buffer, so of what would follow it nothing is said; `ConnectionTheorems.SendOverrunsExactly` and `ConnectionTheorems.ReadOverrunsExactly` say when there is one.
- TcpConnections.TcpConnection.HandleClose: the connection keeps its channel's mask itself and records the calls to the poller; `ConnectionTheorems.PollerFollows` replays them.
- TcpConnections.TcpConnection.HandleRead: the message callback is any sequence of sends and shutdowns of its own connection; what it does to other connections is in `ChatServer`.
- `high_water_mark_cb_` is queued without asking whether it is set; the model counts it and does not run it.
- EventLoops.EventLoop.Turn: a functor that queues on another loop does so in `Reactor`, where producers are steps.
- `TcpServer::thread_init_cb_` and the other callbacks are assumed to touch nothing modelled here.
