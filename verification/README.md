# A verified model of the asio network library and its logger

The library moves bytes between threads and sockets through a small number of stateful parts. This project
models each of them and proves what it is for.

* **The byte buffer** (`ByteBuffer.dfy`). A vector with two cursors refines a plain byte queue over every
  sequence of operations; growth by writing is amortised.
* **The event loop** (`EventLoop.dfy`). A FIFO of posted tasks with an inline path for the loop's own thread.
* **One connection** (`Connection.dfy` and the `Connection*.dfy` files over it). The two swapping send buffers, the
  receive buffer, the write and read operations of the socket, the status and the callbacks, as a state machine in
  which sends from any thread, loop tasks, completions, failures, closes and user code inside callbacks interleave
  freely. Over every run: the two buffers refine one append-only stream (`ConnectionStream.dfy`); producers keep their
  order; the callbacks form a fixed language, and a closed connection comes to rest; lent memory does not move; what
  arrives is what is consumed. `ConnectionRoom.dfy` says exactly when a consumer that leaves no room breaks the
  language, and `ConnectionWitness.dfy` has runs that show the bounds tight. `TcpConn.dfy` is the object itself over
  real buffers, each method tied to the function the properties are about.
* **The server registry** (`TcpServer.dfy`, `Decimal.dfy`). Listening loop, worker loops and user threads.
* **The reconnecting client** (`TcpClient.dfy`) and **round-robin dispatch** (`ThreadPool.dfy`).
* **The logger.** `LogQueue.dfy` is the asynchronous queue as a machine; `LogOrder.dfy` proves the ordering of hot
  changes and of records, `LogOvertake.dfy` which records a change made at once turns away, `LogPool.dfy` the conservation of log entries, `LogContents.dfy` that they carry what callers gave them, `LogCalls.dfy` that whole calls are runs of the
  machine and what a drain does, `LogManager.dfy` the object. `LogStream.dfy` is the bounded stream writer,
  `LogConfig.dfy` the configuration parser, and `LogConfigText.dfy` its round trip.

The usual shape: an entity the source updates in place is a class whose methods are tied to functions on the value
of its state; what is promised is proved about those functions, over all runs of a step relation. Fields marked
`ghost`, and those commented as history, are not fields of the original.

## What is assumed of the environment

* A successful write completion reports between one byte and all that was offered, on an open socket. A successful
  read reports at most the room it was given; a read into no room at all succeeds with nothing even on a closed
  socket. Closing leaves a completion already made as it is. Handlers of one loop run one at a time, on its thread.
* A server's connection is known to nobody else before its attachment is posted or begun. A client's is published by
  the handler that then attaches it, so other threads may send on it and close it in between, but its loop runs
  nothing meanwhile, and the loop's own thread can send on it only once `OnAttachedToLoop` has begun.
* Integers are unbounded: `size_t` cursors and 64-bit counters are taken not to overflow.
* In the logger, what one thread does under the lock, and the check and assignment of the two immediate setters, each
  happen at once. The machine starts when `run` has entered its loop.
* Characters of log texts and configuration stand for bytes, case folding is that of the C locale, and numbers are
  whatever text `snprintf` makes of them.

## Where the code differs from what one would expect

* The close notification may run twice. `HandleError` and the end-of-file path overwrite the status before the guard
  of `HandleClose` looks at it, so a failed write and a failed read each get through
  (`LifeEndsInOrder`, `TwoClosesHappen`).
* `Close()` called after the last completion leaves the status at Disconnecting for good
  (`LateCloseLeavesDisconnecting`).
* The swap in `SendInLoop` is never taken: an open connection without a write in flight has two empty buffers
  (`SendCases`).
* `IsInLoopThread` is true for the constructing thread until a loop runs, so on an unstarted loop an attachment runs on
  the wrong thread and no assertion notices; it happens exactly then (`MisplacedIffUnstarted`). This is a hazard of
  `EventLoop` for a caller that does not wait for its loops: `TCPServer::Start` starts the pool with `Start(true)`, which
  waits until every worker runs, before it accepts.
* The assertion in `OnRemoveConn` can fail from the moment a connection is established while an earlier one has not
  drained, and only then (`IdentityHolds`, `EstablishedTooSoonIff`, `TooSoonBreaksIdentity`).
* A read into no room succeeds with nothing, for ever and even on a closed socket. With one outstanding, messages can
  follow the close notification exactly if a write has failed or still can (`WithoutRoomBreaksIff`).
* A setter called after `stop()` takes effect at once. Exactly those records are turned away whose level the change
  rejects and ahead of which no change of its kind is queued (`DirectChangeTurnsAwayIff`, `OvertakenIffTurnedAway`).
  A thread between the filter and the lock of `pushLog` when `run` returns strands its record (`UncleanExitStrands`).
* `EnsureValidSize` gives no room at capacity 0 or 1 (`EnsureGivesRoomIff`); the stream printer leaves a buffer of
  fewer than two bytes (`RewindStaysInsideIff`); trimming is not idempotent on a second byte order mark
  (`TrimTwiceIff`).

## Model

| member | source | states |
|---|---|---|
| ByteBuffers.EstimateMakesRoom | src/bytebuffer.h:71-75 | Growing on demand leaves the unread bytes as they were and at least the requested room |
| ByteBuffers.ResizeIsSafeIff | src/bytebuffer.h:40 | An explicit resize keeps the cursors inside the storage exactly when it does not cut into written bytes |
| ByteBuffers.ResizeCopies | src/bytebuffer.h:40 | A resize reaches exactly the size asked for, keeps every byte it can, zeroes the new ones, and is charged for what it copies |
| ByteBuffers.EnsureGivesRoomIff | src/bytebuffer.h:63-69 | There is free space afterwards if and only if there was some or the capacity is at least two; unread bytes stay |
| ByteBuffers.WriteAppends | src/bytebuffer.h:77-83 | A write appends exactly its bytes to the unread ones, whether or not it grows the storage |
| ByteBuffers.FillCommits | src/bytebuffer.h:42-47 | Bytes placed behind the write cursor stay invisible until counted, and are then appended |
| ByteBuffers.NormalizeKeepsUnread | src/bytebuffer.h:53-61 | Normalising moves the unread bytes to the front unchanged, and frees what had been read |
| ByteBuffers.ReadDrops | src/bytebuffer.h:46 | Reading k bytes drops the first k unread ones, and is sound exactly when there are k |
| ByteBuffers.StepRefinesQueue | src/bytebuffer.h:42-90 | Each operation does to the unread bytes what the same operation does to a plain byte queue |
| ByteBuffers.BufferRefinesQueue | src/bytebuffer.h:42-90 | Over any sequence of operations within the cursor preconditions, the buffer stays well formed and agrees with a byte queue |
| ByteBuffers.WriteKeepsAmortised | src/bytebuffer.h:71-83 | Writing keeps capacity within max(8192, 3*wpos) and the bytes ever copied within twice the capacity |
| ByteBuffers.ByteBuffer.constructor | src/bytebuffer.h:11-12 | An empty buffer of the given capacity, both cursors at the start |
| ByteBuffers.ByteBuffer.Reset | src/bytebuffer.h:39 | Both cursors back to the start, storage untouched |
| ByteBuffers.ByteBuffer.Resize | src/bytebuffer.h:40 | The vector truncated or zero-extended into new storage, the cursors kept |
| ByteBuffers.ByteBuffer.ReadBytes | src/bytebuffer.h:46 | Advances the read cursor only |
| ByteBuffers.ByteBuffer.WriteBytes | src/bytebuffer.h:47 | Advances the write cursor only |
| ByteBuffers.ByteBuffer.Normalize | src/bytebuffer.h:53-61 | The overlapping move in place has the effect whose laws NormalizeKeepsUnread gives |
| ByteBuffers.ByteBuffer.EnsureValidSize | src/bytebuffer.h:63-69 | Grows a full buffer by half, and only a full one; old storage is not written |
| ByteBuffers.ByteBuffer.EstimateSize | src/bytebuffer.h:71-75 | Grows only when the free space is short; old storage is not written |
| ByteBuffers.ByteBuffer.Write | src/bytebuffer.h:77-83 | Appends over real storage as WriteAppends states, into the same array or a new one |
| ByteBuffers.ByteBuffer.Swap | src/bytebuffer.h:85-90 | Exchanges the whole state of two buffers, arrays included |
| EventLoops.EventLoop.constructor | src/event_loop.cc:3-10 | A loop belongs to its constructing thread until it runs |
| EventLoops.RunTakesOver | src/event_loop.cc:17-20 | After running has started the caller and nobody else is in the loop's thread |
| EventLoops.HandedOver | src/event_loop.cc:40-58 | A task handed over is run at once or queued last, never both and never neither |
| EventLoops.EventLoop.Run | src/event_loop.cc:17-20 | The start of running takes the loop over for the calling thread |
| EventLoops.EventLoop.EndRun | src/event_loop.cc:25 | When the service has returned, the loop is no longer running and still belongs to its thread |
| EventLoops.EventLoop.QueueInLoop | src/event_loop.cc:60-68 | Posts at the end of the queue and runs nothing |
| EventLoops.EventLoop.RunInLoop | src/event_loop.cc:40-58 | Returns its argument to be run at once exactly on the loop's thread, and posts it otherwise |
| EventLoops.EventLoop.Pop | src/event_loop.cc:22-23 | Tasks come off the queue in posting order |
| Connections.CloseGuard | src/tcp_conn.cc:56-81 | HandleClose leaves a Disconnected connection alone, and closes and notifies in any other status |
| Connections.SendCases | src/tcp_conn.cc:136-159 | A send appends to the waiting buffer behind a write in flight, and otherwise to the idle one and starts a write; the swap of lines 143-145 never happens |
| Connections.SendKeepsInv | src/tcp_conn.cc:136-159 | Sending on an open connection keeps the stream, the flag, the lent memory and the cursor counts |
| Connections.WrittenCases | src/tcp_conn.cc:194-215 | What a completed write leaves in which buffer, after a part, after the whole, and after the swap |
| Connections.WrittenKeepsInv | src/tcp_conn.cc:194-215 | A completion, partial or whole, keeps them too and never leaves bytes waiting without a write in flight |
| Connections.WireIsPrefix | src/tcp_conn.cc:136-215 | Acknowledged is a prefix of what the kernel took, which is a prefix of what was accepted |
| Connections.HighWaterIsExact | src/tcp_conn.cc:149-158 | The callback fires for exactly the sends behind a write in flight that leave more than the mark owed, and reports accepted minus acknowledged |
| Connections.CopyingIsLinear | src/tcp_conn.cc:136-215 | Capacities and all copying by growth are linear in the bytes accepted |
| ConnectionRuns.NextIsSound | src/tcp_conn.cc:32-215 | Every step of loop, kernel, threads and callbacks keeps what the handlers rely on |
| ConnectionRuns.InitIsSound | src/tcp_conn.cc:4-24 | A new connection satisfies it |
| ConnectionRuns.RunsKeepSound | src/tcp_conn.cc:32-215 | So every run keeps it, from any such state |
| ConnectionRuns.WireRefinesStream | src/tcp_conn.cc:136-173 | In every reachable state acknowledged, unread and waiting bytes are the accepted ones in order, and the wire is a prefix of them |
| ConnectionRuns.OpenWithoutWriteIsEmpty | src/tcp_conn.cc:142-150 | The flag is set exactly when a write is outstanding, and an open connection without one owes nothing |
| ConnectionRuns.CursorsCountBytes | src/tcp_conn.cc:142-150 | Through all swaps the write cursors sum to the bytes accepted, the read cursors to those acknowledged, and growth stays within its bounds |
| ConnectionRuns.HighWaterReports | src/tcp_conn.cc:152-157 | After every run a send reports what is owed exactly when it should |
| ConnectionRuns.LentMemoryIsStable | src/tcp_conn.cc:161-173 | While a write is in flight only its handler changes the contents or cursors of writing_buffer_; while a read is, only its handler moves a cursor or changes counted bytes of recv_buffer_ |
| ConnectionStream.StepRefinesStream | src/tcp_conn.cc:136-215 | Each step of the connection is one action, or none, of a machine with a single append-only sequence and two marks |
| ConnectionStream.PipelineRefinesStream | src/tcp_conn.cc:136-215 | Every run is action by action a run of that machine: sends append, the kernel takes on from where it left off and only once the last part is acknowledged; wire and acknowledged bytes are the stream up to the marks |
| ConnectionOrder.ProducersKeepTheirOrder | src/tcp_conn.cc:113-140 | Accepted bytes are whole messages; each thread's are a prefix of what it sent, in its order; while open the rest still waits in order, and the loop's own thread never waits |
| ConnectionTrace.TrackRecognises | src/tcp_conn.cc:56-101 | Tracking a trace recognises, both ways, the lives Connected Message* Close and those with two closes and at most one message between |
| ConnectionTrace.OneReadOutstanding | src/tcp_conn.cc:95-101 | Exactly one read is outstanding from attachment to the first failed read, callbacks apart |
| ConnectionTrace.LifeEndsInOrder | src/tcp_conn.cc:56-87 | At rest the socket is closed, the status is Disconnected exactly if Close() was not called since, and the callbacks are Connected Message* Close if no write failed, and otherwise end in two closes with at most one message between |
| ConnectionTrace.StatusIsExact | src/tcp_conn.cc:32-101 | The status in every reachable state, as a function of the history alone |
| ConnectionTrace.LifeIsAlwaysAPrefix | src/tcp_conn.cc:175-215 | Before that the callbacks are always a beginning of such a life |
| ConnectionRest.OwnStepsUseUp | src/tcp_conn.cc:56-215 | On a closed connection every step of the loop or the kernel leaves less to do |
| ConnectionRest.SomethingIsNext | src/tcp_conn.cc:56-215 | Until it is quiescent one of them is always possible |
| ConnectionRest.ClosedComesToRest | src/tcp_conn.cc:56-215 | After any run that closed the socket, what loop and kernel still do is bounded and ends in the quiescent state |
| ConnectionRest.CloseTaskCloses | src/tcp_conn.cc:36-43 | The posted lambda closes the socket and touches nothing else |
| ConnectionRest.CloseIsPosted | src/tcp_conn.cc:32-44 | Close() sets the status and puts the closing at the end of the queue |
| ConnectionRest.CloseIsNeverLost | src/tcp_conn.cc:32-44 | On every run with a call of Close() the socket is closed or its closing is still queued |
| ConnectionRest.CloseLeadsToRest | src/tcp_conn.cc:32-215 | On an attached connection left alone after Close(): once the tasks queued have run the socket is closed, and it stops only when closed and quiescent |
| ConnectionRest.PostedIsAttached | src/tcp_server.cc:134 | A posted attachment is the first and only thing queued for the connection |
| ConnectionRest.AttachmentRuns | src/tcp_conn.cc:95-101 | Running it makes the connection Connected with exactly one notification made |
| ConnectionRest.PublishedIsKnown | src/tcp_client.cc:113-118 | A published connection may be sent on and closed by other threads, and is attached inline before its loop runs anything |
| ConnectionRest.SettersTake | src/tcp_conn.cc:89-93 | The setters set what they are given and nothing else |
| ConnectionWitness.TwoClosesHappen | src/tcp_conn.cc:83-87 | A run on which the close notification runs twice |
| ConnectionWitness.LateCloseLeavesDisconnecting | src/tcp_conn.cc:32-44 | A run that comes to rest with the status still Disconnecting |
| ConnectionRoom.WithoutRoomBreaksIff | src/tcp_conn.cc:161-215 | From every state at rest with a read into no room outstanding and the trace in order, some run leaves the callback language if and only if a write has failed or can still be made to |
| ConnectionWitness.WithoutRoomTheTraceBreaks | src/tcp_conn.cc:161-165 | A run from the start to messages after the close notification, by a consumer that reads nothing |
| ConnectionReceive.ReceiptsAreComplete | src/tcp_conn.cc:187-191 | For any consumer, consumed, unread and just landed bytes are what arrived |
| ConnectionReceive.DrainEmpties | src/tcp_server_impl.h:51-57 | Reading everything and normalising leaves both cursors at the start |
| ConnectionReceive.DrainKeepsDiscipline | src/tcp_server_impl.h:51-57 | The library's own consumer meets both conditions the theorems ask of one, whatever else happens before, between and after its two operations |
| ConnectionReceive.OutsideIsComplete | src/tcp_conn.cc:187-191 | Nothing but sends, closes, kernel writes and setters can happen inside a message callback beside the consumer's own work |
| ConnectionReceive.DrainedConsumerSeesTheStream | src/tcp_conn.cc:161-164 | With it, every chunk is exactly what is new and starts at Data(), chunks concatenate to what arrived, and every read offers the whole capacity |
| TcpConns.OnRecvData | src/tcp_server_impl.h:51-57 | Returns the bytes from Data() and leaves the buffer empty; from a normalised buffer these are the unread bytes |
| TcpConns.TCPConn.constructor | src/tcp_conn.cc:4-24 | A new connection with three separate buffers, the default mark and no callbacks |
| TcpConns.TCPConn.SetHighWaterMarkCallback | src/tcp_conn.cc:89-93 | Sets callback and mark together and nothing else |
| TcpConns.TCPConn.Close | src/tcp_conn.cc:32-44 | Sets the status and posts the lambda that CloseTaskCloses describes, whatever the calling thread |
| TcpConns.TCPConn.Send | src/tcp_conn.cc:113-130 | Sends inline on the loop's thread and otherwise posts, touching nothing else; memory lent to the kernel stays in the same arrays |
| TcpConns.TCPConn.SendInLoop | src/tcp_conn.cc:136-159 | Over real buffers, the send whose laws SendCases gives, without moving an array lent to the kernel; nothing on a closed socket |
| TcpConns.TCPConn.ReportHighWater | src/tcp_conn.cc:152-157 | Reports the bytes owed if above the mark and a callback is set |
| TcpConns.TCPConn.AsyncRead | src/tcp_conn.cc:161-165 | Offers all free space of the receive buffer |
| TcpConns.TCPConn.AsyncWrite | src/tcp_conn.cc:167-173 | Offers the unread bytes unless a write is in flight or there are none |
| TcpConns.TCPConn.HandleClose | src/tcp_conn.cc:56-81 | Nothing when Disconnected; otherwise closes, notifies and ends Disconnected |
| TcpConns.TCPConn.HandleError | src/tcp_conn.cc:83-87 | Always notifies, because it overwrites the status first |
| TcpConns.TCPConn.OnAttachedToLoop | src/tcp_conn.cc:95-101 | Connected, notified, and the first read started |
| TcpConns.TCPConn.HandleRead | src/tcp_conn.cc:175-192 | Failure closes; success hands the consumer the new bytes and starts the next read on an emptied buffer; the arrays of a write in flight stay |
| TcpConns.TCPConn.Deliver | src/tcp_conn.cc:187-189 | What landed is counted, the consumer is given Size() bytes from Data(), and the buffer is left empty |
| TcpConns.TCPConn.HandleWrite | src/tcp_conn.cc:194-215 | Failure closes; success continues the part left in the same array, then the waiting buffer, else rests; the array of a read in flight stays |
| Decimals.DecimalIsInjective | src/tcp_server.cc:128 | Different connection numbers print differently |
| Decimals.NoLeadingZero | src/tcp_server.cc:128 | Only zero itself prints with a zero in front |
| TcpServers.NamesAreUnique | src/tcp_server.cc:128 | No two connections of a server share a name |
| TcpServers.NameOf | src/tcp_server.cc:128 | The name is the server's, then "-conn#", then the number |
| TcpServers.RegistryAgrees | src/tcp_server.cc:86-136 | In every interleaving a connection is in conns_ exactly from its insertion to its first executed removal, under its own name |
| TcpServers.ErasedForGood | src/tcp_server.cc:86-94 | A removed entry is never resurrected, so later removals change nothing |
| TcpServers.EarlyRemovalIff | src/tcp_server.cc:125-136 | A removal runs before the insertion exactly when user code calls RemoveConn on the listening thread inside an inline attachment; the close callback never does |
| TcpServers.DrainedRegistryIsEmpty | src/tcp_server.cc:86-94 | Once every connection has closed and the listening queue is drained, conns_ is empty, with or without workers |
| TcpServers.AttachedExactlyOnce | src/tcp_server.cc:134 | On every run the attachment of each connection is queued once on its own loop or has run once, never both, so a loop that has drained its queue has attached all its connections |
| TcpServers.RequestsAreTaken | src/event_loop.cc:40-68 | A removal, send or close asked for runs at once or is queued last on the right loop |
| TcpServers.EraseTakesOne | src/tcp_server.cc:91 | An erasure takes out the named connection and no other |
| TcpServers.TasksAreConfined | src/tcp_conn.cc:32-137 | None of the loop-thread assertions of TCPConn and TCPServer fails on any run; accepting and erasing run on the listening thread, and all else on the connection's own if loops were started first |
| TcpServers.MisplacedIffUnstarted | src/event_loop.cc:3-20 | On every run, some attachment has run on the wrong thread if and only if a connection was given to a loop not yet started |
| TcpServers.UnstartedLoopMisplacesAttach | src/event_loop.cc:3-20 | A run on which it has, with every assertion passing |
| TcpServers.RemoveInConnectCallbackIsLost | src/tcp_server.cc:134-135 | With no workers, a removal from the connect callback is lost |
| TcpServers.TCPServer.constructor | src/tcp_server.cc:6-18 | An empty registry numbering from zero |
| TcpServers.TCPServer.RunAttach | src/tcp_conn.cc:95-97 | Records which thread the attachment ran on and what its assertion said |
| TcpServers.TCPServer.Erase | src/tcp_server.cc:88-92 | Erases by name, and records whether the entry had been made |
| TcpServers.TCPServer.RemoveConn | src/tcp_server.cc:86-94 | Erases inline on the listening thread and posts there from any other |
| TcpServers.TCPServer.AttachOn | src/tcp_server.cc:134 | Attaches inline or posts to the connection's loop |
| TcpServers.TCPServer.HandleNewConn | src/tcp_server.cc:125-136 | Uninterrupted, it is the two steps the protocol splits it into: hand out, then insert under a new name; its own assertion is recorded |
| TcpClients.RunsKeepInv | src/tcp_client.cc:48-131 | Every run keeps the counter and the identity invariants |
| TcpClients.CloseForgets | src/tcp_client.cc:122-131 | After a close callback there is no current connection, whether reconnecting or not |
| TcpClients.CurrentIsNotClosed | src/tcp_client.cc:122-131 | On every run, a connection whose close callback has run is not the current one, ever again |
| TcpClients.EstablishedIsCurrent | src/tcp_client.cc:55-57 | Success clears the counter and makes a new connection current, or for a closed socket only makes the callback |
| TcpClients.CounterIsBounded | src/tcp_client.cc:48-74 | Without overlapping Connect calls: one activity at a time, the counter in 0..5, and 0 whenever connected |
| TcpClients.IdentityHolds | src/tcp_client.cc:122-131 | If connections drain before the next is established, the assertion in OnRemoveConn never fails |
| TcpClients.TooSoonBreaksIdentity | src/tcp_client.cc:122-131 | Conversely, every run that could establish one while an earlier one drains goes on to one on which it fails |
| TcpClients.IdentityAtRiskIff | src/tcp_client.cc:122-131 | In every reachable state some possible close callback fails it exactly when there is a current connection and another has not drained |
| TcpClients.EstablishedTooSoonIff | src/tcp_client.cc:100-131 | Before a connection is established: it puts the assertion at risk exactly when an earlier one has not drained |
| TcpClients.IdentityCanFail | src/tcp_client.cc:122-131 | A run on which it fails |
| TcpClients.FailuresSpendTheBudget | src/tcp_client.cc:52-74 | A run of failures spends one unit per attempt and therefore ends |
| TcpClients.AttemptsBeforeGivingUp | src/tcp_client.cc:60-74 | At most six attempts from a fresh start and five after a dropped connection; exactly that many when it has given up |
| TcpClients.SwitchedOffStops | src/tcp_client.cc:76-90 | Once switched off, at most one further attempt starts, from a timer already armed |
| TcpClients.DisconnectStops | src/tcp_client.cc:81-89 | Disconnect closes the current connection, if any, and from then on only a timer already armed starts an attempt |
| TcpClients.SwitchTakes | src/tcp_client.cc:83 | Only the user switches reconnecting, and each switch takes |
| TcpClients.TCPClient.constructor | src/tcp_client.cc:6-26 | No connection, no attempts, reconnecting off |
| TcpClients.TCPClient.Connect | src/tcp_client.cc:48-69 | Starts one attempt |
| TcpClients.TCPClient.ConnectDone | src/tcp_client.cc:53-68 | Success clears the counter and takes the connection; failure arms one wait if switched on and below five |
| TcpClients.TCPClient.Reconnect | src/tcp_client.cc:71-74 | Counts, and starts one attempt |
| TcpClients.TCPClient.TimerFired | src/tcp_client.cc:61-62 | A wait that ends turns into one counted attempt |
| TcpClients.TCPClient.HandleConn | src/tcp_client.cc:100-119 | For a closed socket only the connection callback is made; an open one becomes the current connection |
| TcpClients.TCPClient.OnRemoveConn | src/tcp_client.cc:122-131 | Forgets the current connection and reconnects if switched on; nothing when there is none |
| TcpClients.TCPClient.Disconnect | src/tcp_client.cc:76-90 | Switches reconnecting off and closes the current connection, if any |
| ThreadPools.WindowIsBalanced | src/event_loop_thread_pool.cc:106-107 | In k consecutive counter values each residue of n occurs floor(k/n) or ceil(k/n) times |
| ThreadPools.CallsPickInTurn | src/event_loop_thread_pool.cc:100-126 | Both entry points draw from one counter, in turn |
| ThreadPools.CountTurns | src/event_loop_thread_pool.cc:106-107 | How often a worker is chosen, from the two ends of the window alone |
| ThreadPools.DispatchIsBalanced | src/event_loop_thread_pool.cc:100-126 | Any k consecutive calls, mixed as they may be, choose each of n workers floor(k/n) or ceil(k/n) times |
| ThreadPools.EventLoopThreadPool.constructor | src/event_loop_thread_pool.cc:6-11 | The counter starts at zero |
| ThreadPools.EventLoopThreadPool.GetNextLoop | src/event_loop_thread_pool.cc:100-112 | The loop of the worker whose turn it is, or the base loop without workers |
| ThreadPools.EventLoopThreadPool.GetSocketForAccept | src/event_loop_thread_pool.cc:114-126 | Socket and loop of one and the same worker, the one whose turn it is |
| LogStreams.Printed | examples/tcp_cereal_packet/utility/log4z.h:553-660 | For every nested value the cursor stays inside the buffer and ends no lower than it started, but for the last byte, in spite of the rewinds |
| LogStreams.PrintedItems | examples/tcp_cereal_packet/utility/log4z.h:559-575 | The element loop advances at least two bytes or fills the buffer, so the rewind that follows stays inside |
| LogStreams.StringIsWritten | examples/tcp_cereal_packet/utility/log4z.h:770-791 | A string is written whole if it fits with a byte to spare; otherwise the cursor is at the end and all but the last two bytes are a beginning of the text |
| LogStreams.DataIsWritten | examples/tcp_cereal_packet/utility/log4z.h:677-707 | So is formatted data, and a failed format writes nothing |
| LogStreams.ItemsTextIsJoin | examples/tcp_cereal_packet/utility/log4z.h:559-575 | What the loop writes is the first five elements joined by commas, then "...", and one separator more |
| LogStreams.ItemsAreWritten | examples/tcp_cereal_packet/utility/log4z.h:559-575 | The element loop writes that text, up to a separator that may be damaged at the end of the buffer |
| LogStreams.PrintIsWritten | examples/tcp_cereal_packet/utility/log4z.h:553-660 | Every nested value is written as the pure printer renders it, rewinds notwithstanding |
| LogStreams.PrintedWholeIff | examples/tcp_cereal_packet/utility/log4z.h:553-660 | The bytes equal the pure rendering if it fits strictly; else the buffer is full and all but its last two bytes are a beginning of the text; a cursor short of the last byte proves it complete |
| LogStreams.WritesTerminate | examples/tcp_cereal_packet/utility/log4z.h:677-791 | Where the terminator of each writer goes |
| LogStreams.ShowsFive | examples/tcp_cereal_packet/utility/log4z.h:559-570 | All of up to five elements are shown, and of more the first five and dots |
| LogStreams.Rendered | examples/tcp_cereal_packet/utility/log4z.h:553-660 | What pairs and each kind of container look like |
| LogStreams.RewindStaysInsideIff | examples/tcp_cereal_packet/utility/log4z.h:571-575 | The rewind stays inside the buffer if and only if it has at least two bytes |
| LogStreams.Log4zStream.constructor | examples/tcp_cereal_packet/utility/log4z.h:670-675 | The cursor starts at the beginning |
| LogStreams.Log4zStream.WriteString | examples/tcp_cereal_packet/utility/log4z.h:770-791 | The copy and the terminator over the real buffer |
| LogStreams.Log4zStream.WriteData | examples/tcp_cereal_packet/utility/log4z.h:691-704 | The formatted copy over the real buffer, truncated at the end |
| LogStreams.Log4zStream.WriteError | examples/tcp_cereal_packet/utility/log4z.h:693-697 | A failed format leaves a terminator and the cursor where it was |
| LogStreams.Log4zStream.Print | examples/tcp_cereal_packet/utility/log4z.h:553-660 | The nested printer, with its loop, its early exit and its rewind, does what Printed says |
| LogOrder.FoldIsMonotone | examples/tcp_cereal_packet/utility/log4z.cpp:1541-1559 | Loosening settings before any queued changes loosens them after |
| LogOrder.StepKeepsOrder | examples/tcp_cereal_packet/utility/log4z.cpp:1437-1580 | Every step of the machine keeps the promises made to queued records and the order of the queue |
| LogOrder.PromisesAreKept | examples/tcp_cereal_packet/utility/log4z.cpp:1437-1840 | Records are popped in push order; unless a setter called after stop() turned one away, each record the settings effective at its push accepted is accepted at its pop; unless one changed a logger with a pending record, what it meets differs only in letting more through |
| LogOrder.TurnedAwayIff | examples/tcp_cereal_packet/utility/log4z.cpp:1541-1559 | A change applied under any queued changes turns an accepted record away exactly if it rejects the level and no change of its kind is queued ahead |
| LogOrder.CountersMatchQueue | examples/tcp_cereal_packet/utility/log4z.cpp:1504-1507 | Pushed minus popped counts the records in the queue and in the logger's hand, which are the ones not yet popped, in order |
| LogOrder.ExitLeavesNothingQueued | examples/tcp_cereal_packet/utility/log4z.cpp:1812-1908 | When run has returned, everything queued before has been popped, and nothing is left behind if nobody was inside pushLog |
| LogOrder.UncleanExitStrands | examples/tcp_cereal_packet/utility/log4z.cpp:1437-1508 | Otherwise that thread's record is stranded |
| LogOvertake.DirectChangeTurnsAwayIff | examples/tcp_cereal_packet/utility/log4z.cpp:1526-1529 | For every state, change and queued record it was going to accept: after the change and a drain the record is rejected exactly under that condition |
| LogOvertake.OvertakenIffTurnedAway | examples/tcp_cereal_packet/utility/log4z.cpp:1526-1529 | So the promise is given up exactly by a change after which draining rejects an accepted record |
| LogOvertake.DirectChangeOvertakes | examples/tcp_cereal_packet/utility/log4z.cpp:1526-1529 | A run to such a state and change |
| LogOvertake.MetHolds | examples/tcp_cereal_packet/utility/log4z.cpp:1815-1834 | Every record of a queue stands among the popped at the place of its rank, with the settings it met |
| LogPool.StepKeepsPlace | examples/tcp_cereal_packet/utility/log4z.cpp:1160-1233 | Every step keeps each log entry in exactly one place |
| LogPool.LogDataIsConserved | examples/tcp_cereal_packet/utility/log4z.cpp:1160-1233 | Each entry made is in exactly one of queue, free list, one thread's hand or the deleted, and T threads never push the free list beyond 199+T |
| LogPool.TotalIsConserved | examples/tcp_cereal_packet/utility/log4z.cpp:1160-1233 | Queued, free, held and deleted entries add up to those made, and none is deleted unless more than 200 were made |
| LogQueues.StepShape | examples/tcp_cereal_packet/utility/log4z.cpp:1160-1840 | Which entry each step moves, from where to where |
| LogCalls.FreeIsARun | examples/tcp_cereal_packet/utility/log4z.cpp:1221-1233 | A call of freeLogData is a run of the machine |
| LogCalls.PushIsARun | examples/tcp_cereal_packet/utility/log4z.cpp:1437-1508 | A call of pushLog is a run of the machine |
| LogCalls.PushFilters | examples/tcp_cereal_packet/utility/log4z.cpp:1437-1508 | A record known, enabled, at the level and while running is queued last as it is; any other leaves queue and history alone |
| LogContents.RecordsAreTheirCalls | examples/tcp_cereal_packet/utility/log4z.cpp:1160-1508 | On every run each pushed record, and each queued change, carries what its caller made it with, and those of one caller are pushed once each, in the order of its calls |
| LogContents.CallsAreOfTheSteps | examples/tcp_cereal_packet/utility/log4z.cpp:1160-1219 | One call for each making on the run, with what it was given |
| LogCalls.HotChangeIsARun | examples/tcp_cereal_packet/utility/log4z.cpp:1522-1539 | A call of hotChange is a run of the machine |
| LogCalls.LongTextsAreRefused | examples/tcp_cereal_packet/utility/log4z.cpp:1525 | A name or path is refused exactly from 8192 characters on |
| LogCalls.EnableIsARun | examples/tcp_cereal_packet/utility/log4z.cpp:1561-1570 | A call of enableLogger is a run of the machine |
| LogCalls.LevelIsARun | examples/tcp_cereal_packet/utility/log4z.cpp:1571-1580 | A call of setLoggerLevel is a run of the machine |
| LogCalls.CreatedIsEnabled | examples/tcp_cereal_packet/utility/log4z.cpp:1381-1393 | A new logger is enabled and named, and no other changes |
| LogCalls.ExitDisables | examples/tcp_cereal_packet/utility/log4z.cpp:1910-1917 | When run returns every logger is disabled and otherwise unchanged |
| LogQueues.ApplySetsOne | examples/tcp_cereal_packet/utility/log4z.cpp:1541-1559 | A change gives its own attribute the value it carries and leaves the other nine alone |
| LogQueues.EnqueueKeepsEntry | examples/tcp_cereal_packet/utility/log4z.cpp:1504-1507 | What is queued is the entry in the thread's hand, at the end |
| LogCalls.DrainIsARun | examples/tcp_cereal_packet/utility/log4z.cpp:1815-1876 | The inner loop of run is a run of the machine and empties the queue |
| LogCalls.MetCons | examples/tcp_cereal_packet/utility/log4z.cpp:1815-1834 | What a queue's records meet, from its head or from its end, is the same |
| LogCalls.DrainMeetsTheFold | examples/tcp_cereal_packet/utility/log4z.cpp:1815-1840 | Every record drained meets exactly the changes queued ahead of it, and every logger ends with all of its own |
| LogManagers.LogerManager.constructor | examples/tcp_cereal_packet/utility/log4z.cpp:1135-1153 | One enabled main logger, nothing queued, not running |
| LogManagers.LogerManager.BeginRun | examples/tcp_cereal_packet/utility/log4z.cpp:1792 | From there, the state the machine starts in |
| LogManagers.LogerManager.MakeLogData | examples/tcp_cereal_packet/utility/log4z.cpp:1160-1219 | Takes the last free entry, or a new one when none is free |
| LogManagers.LogerManager.FreeLogData | examples/tcp_cereal_packet/utility/log4z.cpp:1221-1233 | Returns the entry to the free list below 200 and deletes it otherwise |
| LogManagers.LogerManager.Enqueue | examples/tcp_cereal_packet/utility/log4z.cpp:1504-1507 | Appends the very entry it is given and counts records only |
| LogManagers.LogerManager.PushLog | examples/tcp_cereal_packet/utility/log4z.cpp:1437-1508 | True exactly for a known, enabled logger at the level while running; then the queue has grown by that record, otherwise not at all |
| LogManagers.LogerManager.OnHotChange | examples/tcp_cereal_packet/utility/log4z.cpp:1541-1559 | Changes the one attribute of the one logger, and nothing for an unknown one |
| LogManagers.LogerManager.HotChange | examples/tcp_cereal_packet/utility/log4z.cpp:1522-1539 | While running the queue grows by that change, otherwise it is made at once; refused for an unknown logger or a text too long |
| LogManagers.LogerManager.EnableLogger | examples/tcp_cereal_packet/utility/log4z.cpp:1561-1570 | Enabling is immediate, disabling queues up |
| LogManagers.LogerManager.SetLoggerLevel | examples/tcp_cereal_packet/utility/log4z.cpp:1571-1580 | A lower or equal level is immediate, a higher one queues up |
| LogManagers.LogerManager.PopLog | examples/tcp_cereal_packet/utility/log4z.cpp:1778-1788 | Takes the oldest entry, if any |
| LogManagers.LogerManager.Handle | examples/tcp_cereal_packet/utility/log4z.cpp:1817-1876 | One entry applied or counted against the current settings, then freed |
| LogManagers.LogerManager.Drain | examples/tcp_cereal_packet/utility/log4z.cpp:1815-1877 | Undisturbed, the loop ends with an empty queue in the state DrainMeetsTheFold describes |
| LogConfigs.TrimIsTheMiddle | examples/tcp_cereal_packet/utility/log4z.cpp:530-578 | Any way of cutting ignorable ends off that leaves a tight middle gives the trimmed text |
| LogConfigs.TrimCuts | examples/tcp_cereal_packet/utility/log4z.cpp:530-578 | And trimming is such a way, after a leading byte order mark |
| LogConfigs.TrimTwiceIff | examples/tcp_cereal_packet/utility/log4z.cpp:538-544 | Trimming twice is trimming once if and only if no second byte order mark stands behind the ignorable front |
| LogConfigs.Trim | examples/tcp_cereal_packet/utility/log4z.cpp:530-578 | The single pass equals dropping the mark and stripping the maximal ignorable prefix and suffix |
| LogConfigs.LinesRebuild | examples/tcp_cereal_packet/utility/log4z.cpp:764-790 | The lines and the separators between them rebuild the content, and no line holds a separator |
| LogConfigs.LinesAreUnique | examples/tcp_cereal_packet/utility/log4z.cpp:764-790 | No other lines and separators do |
| LogConfigs.Find | examples/tcp_cereal_packet/utility/log4z.cpp:581-589 | The pair is split at the first equals sign |
| LogConfigs.Assign | examples/tcp_cereal_packet/utility/log4z.cpp:649-751 | Every attribute but the one the option names is left as it was, and the days kept always; which one it sets, and to what, OptionInAnyCase and the rows after it say |
| LogConfigs.SetIgnoresCase | examples/tcp_cereal_packet/utility/log4z.cpp:642-655 | Folding name or value first makes no difference, but for the values of path and name |
| LogConfigTexts.LowerIdentifies | examples/tcp_cereal_packet/utility/log4z.cpp:612 | Folding identifies exactly the texts that agree letter by letter up to case |
| LogConfigTexts.AttributeInAnyCase | examples/tcp_cereal_packet/utility/log4z.cpp:641-740 | An option is about an attribute exactly if its name is that attribute's in any case |
| LogConfigTexts.OptionInAnyCase | examples/tcp_cereal_packet/utility/log4z.cpp:641-750 | What is written for an attribute is set whatever the case of name and value, values of path and name as they stand |
| LogConfigTexts.MainInAnyCase | examples/tcp_cereal_packet/utility/log4z.cpp:609-617 | A header opens Main exactly for main in any case, and otherwise the section of its text |
| LogConfigTexts.SwitchedOff | examples/tcp_cereal_packet/utility/log4z.cpp:687-748 | Off is false in any case, or 0; all else is on |
| LogConfigTexts.OtherLevelNames | examples/tcp_cereal_packet/utility/log4z.cpp:656-685 | The second names of levels, and names of none |
| LogConfigTexts.SignedNumerals | examples/tcp_cereal_packet/utility/log4z.cpp:725 | Signs and leading blanks of sizes |
| LogConfigTexts.NegativeSizes | examples/tcp_cereal_packet/utility/log4z.cpp:725 | A negative size wraps to an unsigned one |
| LogConfigTexts.NewSections | examples/tcp_cereal_packet/utility/log4z.cpp:618-626 | A new section is enabled, named after its key, with the defaults |
| LogConfigTexts.OldSections | examples/tcp_cereal_packet/utility/log4z.cpp:627-631 | A header met again continues its section |
| LogConfigTexts.ValueIsRead | examples/tcp_cereal_packet/utility/log4z.cpp:643-750 | Each attribute written as text is read back as it was |
| LogConfigTexts.OptionIsRead | examples/tcp_cereal_packet/utility/log4z.cpp:593-641 | A clean name, an equals sign and a clean value are read as that option, equals signs in the value included |
| LogConfigTexts.PaddedOptionIsRead | examples/tcp_cereal_packet/utility/log4z.cpp:593-641 | Blanks around name and value do not matter |
| LogConfigTexts.HiddenMarkIsDropped | examples/tcp_cereal_packet/utility/log4z.cpp:600-634 | Nor does a byte order mark behind blanks, since both are trimmed twice |
| LogConfigTexts.SilentLines | examples/tcp_cereal_packet/utility/log4z.cpp:593-604 | Lines without a name are refused; blank names and comments are skipped |
| LogConfigTexts.Codes | examples/tcp_cereal_packet/utility/log4z.cpp:533-546 | The characters cut off, the line ends and the byte order mark, by code |
| LogConfigTexts.HeaderIsRead | examples/tcp_cereal_packet/utility/log4z.cpp:605-620 | A bracketed clean key opens its section |
| LogConfigTexts.WrittenSectionIsRead | examples/tcp_cereal_packet/utility/log4z.cpp:591-752 | A section written out with all options and parsed has exactly the settings it was written from, but for the days kept |
| LogConfigs.ParseConfigLine | examples/tcp_cereal_packet/utility/log4z.cpp:591-752 | Refuses, skips, opens a section or assigns in the current one, exactly as the line reads |
| LogConfigs.ParseConfigFromString | examples/tcp_cereal_packet/utility/log4z.cpp:754-791 | The scanning loop ends and the resulting map is the fold over the lines; empty content changes nothing |
| LogConfigs.SectionsAreIndependent | examples/tcp_cereal_packet/utility/log4z.cpp:603-641 | A section exists exactly if it did or has a header, and holds its defaults under the assignments below its own headers, in order; no other line touches it |
| LogConfigs.LinesBeforeHeadersAreIgnored | examples/tcp_cereal_packet/utility/log4z.cpp:635-641 | Lines ahead of the first header change nothing |

## Left out

- Sockets, resolver, acceptor and timers: present only as the environment's steps, under the assumptions above.
- Shutdown: `EventLoop::Stop`, the pool's and the server's `Stop`. `StopInLoop` asks whether the service has stopped instead of stopping it, so that stopping terminates is not true of this code. What `Stop` does to a connection is the closing step.
- The destructors and their assertions, and the assertion about the status in `DisconnectInLoop`, which a `Close()` by user code falsifies; only its effect on reconnecting is modelled.
- Setting a new expiry on the reconnect timer while a wait is armed, which would complete that wait early; under the no-overlap condition there is never one armed.
- Packet serialisation and dispatch, and what `OnRecvData_` does with a chunk after taking it: the code frames nothing, so message boundaries are not promised.
- `Update`, `SetTCPNoDelay`, the type and address accessors, and copying and moving a `ByteBuffer`.
- Memory-model races on `status_`, `tid_`, the logger's flags and its settings; each access is one step.
- Wrap-around of `size_t`, of the 64-bit dispatch counter and of log statistics.
- `prePushLog`, its limit on the queue, and the file name and line suffix `pushLog` appends: a record's text is any text.
- Synchronous output, which is switched off by a constant; writing, opening, rotating and deleting log files, time, colours, semaphores, and the Windows branches. A record counts as put out when the settings it meets accept it; that opening its file fails and then switches file output off is not modelled.
- `createLogger` trimming and looking up its key, `configFromStringImpl` with its checksum, and the periodic reload: they only call members modelled here.
- `std::queue` printing, which needs iterators a queue does not have, and the binary, address and wide-string writers.
- "The last setter wins" for a logger's enabling and level: not true, since a queued disabling can land after an immediate enabling.
- LogConfigs.Assign: `limitsize` is taken modulo 2^32 of the number written; what `atoi` does with a number beyond `int` is undefined in the original.
- ByteBuffers.ByteBuffer.Resize: does not say that a shrinking resize keeps the same storage, because an array has a fixed length; no caller in the library shrinks a buffer.
- EventLoops.EventLoop.Run: does not run the service, because tasks are run by the component that owns the loop, one `Pop` at a time; `EndRun` is what follows the service.
- TcpServers.TasksAreConfined: does not include the three assertions of the client (src/tcp_client.cc:82, 106, 126), because the client has a single loop and its model no threads.
