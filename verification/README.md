# Verified models of the scanner's protocol code

Dafny models of the hard parts of a network scanner and its HTTP library, with proofs of what they promise.
`dafny verify dfyconfig.toml` checks the whole project.

The HTTP/2 implementation (`lib/http/h2_bundle.go`, RFC 7540) is modelled in five layers.

- **Queues and schedulers.** `FlowControl`, `WriteQueues` and `RandomScheduler` hold windows, per-stream queues and
  the cutting of DATA frames. `StreamTree` is the theory of dependency trees on stream ids. `PriorityNodes`,
  `PriorityTree`, `PrioritySort`, `PriorityWalk`, `PriorityEviction`, `PriorityUpdates`, `PrioritySums` and
  `PriorityScheduler` are the heap structure: nodes with parent pointers and doubly linked sibling lists, changed in
  place; `PriorityRuns` are whole runs of it. Each heap method is specified on snapshots of the links, the node data
  and the windows, and the reasoning about trees is done on the snapshots.
- **Frames.** `Frames` has a printer and a parser per frame type, `FrameStreams` the order automaton and whole
  sequences, `Framer` the write buffer and the reader.
- **Header blocks.** `HeaderBlocks` cuts blocks into HEADERS, PUSH_PROMISE and CONTINUATION frames and puts them
  together again.
- **The server connection.** `Server` holds the connection as an object whose methods call each other as the
  original's do: the write loop, the start and end of writes, shutdown, resets, opening and closing streams.
  `ServerSettings`, `ServerEvents` and `ServerLoop` add the handling of each frame and event, and the loop over them,
  and `ServerRuns` and `ServerPanics` runs of it that end badly. A Go panic ends a run; `Why` lists them. The ghost
  field `trace` records every step of a run, and `ServerTrace` says which runs are allowed and what all of them
  promise. `ServerInvariant` is what holds between any two steps, `ServerCounts`, `ServerLedger` and `ServerWork` its
  parts: stream counters, inbound ledgers, and the measure by which the re-entrant write loop ends.
- **The request body buffer.** `FixedBuffer` is the compacting buffer behind a request's pipe.

The smaller models are `IdlePool` (idle HTTP/1 connections: lists per host against one LRU list), `Chunked` and `Hex`
(chunked coding over any pattern of short reads), `Pipeline` (workers, bounded channels and wait groups as a state
machine over the steps of goroutines), `OutputFilter` (stripping debug fields from a tree of values), `SshBuffer` (a
linked list of byte slices) and `Cidr` (expansion of address blocks). `Basics`, `Protocol`, `Bytes`
and `Sums` are shared.

Fields of a connection that change together are kept in records (`Table`, `Windows`, `Flags`); a stream object is
named by its id, which is sound because no id is used twice, and that is proved. Nondeterminism stands for what the
environment decides: the order of map iteration, the order that `sort` produces, how many bytes a read returns,
whether a frame fits the write buffer (which `Habit` can fix for some frames), and when events arrive.

Where the code does less than its documentation says, the model follows the code and states the exact condition:

- adding to a flow-control window is exact if and only if the window is not negative;
- removing a priority node with kids leaves a tree if and only if there is at most one kid;
- a PUSH_PROMISE that needs CONTINUATION frames is refused by this reader's own order check;
- the loop over `0.0.0.0/0` never ends, and an IPv6 block that reaches `::ffff:0:0` is cut short there, which no block
  with a prefix of 96 bits or more is;
- after an event of the server a write is under way or nothing is left to write, unless SETTINGS are refused during a
  graceful shutdown with no write outstanding and the entries before the bad one have let a frame go out: it stays
  there until an event looks for frames to write, or takes its queue or its window away; which events do is stated;
- an open stream can lose its frames in the priority scheduler if it was reprioritized before it was open;
- a pipeline with targets and no workers gets stuck, and no other does;
- two HEADERS that each end a request panic, exactly if the request never had a body; the end of a reset that a
  handler's panic caused panics exactly if the stream has been closed meanwhile; the panics about writes on streams
  that have ended and about the connection's inbound window are met in runs whose client keeps to the protocol.

## Model

| member | source | states |
|---|---|---|
| FlowControl.AddExactIffNonNegative | lib/http/h2_bundle.go:556-563 | adding to a window refuses exactly the sums above 2^31-1, for every increment, if and only if the window is not negative: the room is itself computed in 32 bits |
| FlowControl.NegativeWindowAddWraps | lib/http/h2_bundle.go:556-563 | on a negative window every accepted increment wraps the counter round to a non-negative value |
| FlowControl.Flow.Available | lib/http/h2_bundle.go:536-542 | the smaller of the stream's and the connection's window |
| FlowControl.Flow.Take | lib/http/h2_bundle.go:544-552 | debits both windows by the same amount; the panic on taking too much is the precondition, met by every caller |
| FlowControl.Flow.Add | lib/http/h2_bundle.go:556-563 | adds within 32 bits or leaves the window alone, exactly as documented on windows that are not negative |
| WriteQueues.FrameWriteRequest.Consume | lib/http/h2_bundle.go:7809-7854 | 0, 1 or 2 frames: blocked only by a used-up window, never more than the limit, the window or the maximum frame size; the pieces together are the frame; END_STREAM and the reply channel go with the last piece; windows are debited by the bytes taken |
| WriteQueues.CutKeepsItems | lib/http/h2_bundle.go:7826-7850 | cutting a DATA frame moves bytes, never end marks, and changes no byte |
| WriteQueues.HeadTakenKeepsItems | lib/http/h2_bundle.go:7908-7922 | what leaves a queue followed by what stays is what was there, byte by byte and mark by mark |
| WriteQueues.WriteQueue.Push | lib/http/h2_bundle.go:7888-7890 | appends at the end |
| WriteQueues.WriteQueue.Shift | lib/http/h2_bundle.go:7892-7902 | removes the first frame; the panic on an empty queue is the precondition |
| WriteQueues.WriteQueue.Consume | lib/http/h2_bundle.go:7908-7922 | takes from the first frame only; false exactly if the queue is empty or its first frame is DATA held back by a used-up window |
| RandomScheduler.Scheduler.GetQueue | lib/http/h2_bundle.go:7936-7946 | a queue from the pool is empty and serves no stream |
| RandomScheduler.Scheduler.PutQueue | lib/http/h2_bundle.go:7927-7933 | a queue goes back to the pool cleared |
| RandomScheduler.Scheduler.Push | lib/http/h2_bundle.go:8391-8403 | the frame goes to the end of its stream's queue, and the account of every stream stays balanced |
| RandomScheduler.Scheduler.Pop | lib/http/h2_bundle.go:8405-8417 | false exactly when every queue is exhausted by flow control, and then nothing changes; otherwise one queue gives up (a piece of) its first frame, at most the maximum frame size, and both windows are debited by exactly its bytes |
| RandomScheduler.Scheduler.CloseStream | lib/http/h2_bundle.go:8378-8385 | drops the frames of one stream and of no other |
| RandomScheduler.PayloadConserved | lib/http/h2_bundle.go:8391-8417 | in every state with balanced accounts the payload popped for a stream that was never closed, followed by the payload queued, is the payload pushed, in order |
| RandomScheduler.FlagsLeaveLast | lib/http/h2_bundle.go:7826-7854 | END_STREAM and the reply channel leave only with the last piece of a frame, and the payload popped grows by exactly the piece |
| RandomScheduler.Exercise | lib/http/h2_bundle.go:8378-8417 | any list of Push, Pop, CloseStream and changes of windows, from a new scheduler: for any stream that the list does not close, what came out followed by what is queued is what went in, byte by byte and mark by mark in push order, and so is its payload; no frame but a last piece carries END_STREAM or the reply channel |
| StreamTree.ReparentKeepsTree | lib/http/h2_bundle.go:8043-8074 | moving a stream under one that does not depend on it keeps an acyclic tree rooted at 0 |
| StreamTree.AdoptKeepsTree | lib/http/h2_bundle.go:8268-8286 | handing all kids of a parent to a stream and then moving the stream under that parent ends in a tree, although the steps between can form a cycle |
| StreamTree.ReprioritizedIsTree | lib/http/h2_bundle.go:8253-8288 | reprioritizing (sections 5.3.1 and 5.3.3 of RFC 7540) always ends in a tree on the same streams |
| StreamTree.ExclusiveIsOnlyKid | lib/http/h2_bundle.go:8268-8286 | after an exclusive change the stream is the only kid of its parent, has adopted the former kids, and no other stream has moved |
| StreamTree.NonExclusiveMovesOne | lib/http/h2_bundle.go:8268-8286 | a non-exclusive change moves the stream, and its new parent if that depended on it, and nothing else |
| StreamTree.DescendantsFollow | lib/http/h2_bundle.go:8268-8286 | what depended on the stream still does, except what hung on a parent that was lifted out first |
| PriorityNodes.Node.SetParent | lib/http/h2_bundle.go:8043-8074 | on the heap: consistent parent, kids, prev and next links before and after; one node changes its parent and goes to the front of its new siblings; every other node keeps its parent and order |
| PriorityNodes.ReparentedLinked | lib/http/h2_bundle.go:8043-8074 | unlinking and relinking one node keeps the doubly linked sibling lists consistent |
| PriorityTree.Climb | lib/http/h2_bundle.go:8076-8081 | adds the bytes to the subtree counts of the node and of everything above it, and of nothing else |
| PriorityTree.AddBytes | lib/http/h2_bundle.go:8076-8081 | own and subtree counts grow by the bytes written, on the path to the root only |
| PriorityTree.LiftParent | lib/http/h2_bundle.go:8268-8273 | a parent that depends on the stream takes the stream's place first |
| PriorityTree.AdoptKids | lib/http/h2_bundle.go:8275-8284 | the loop over the siblings, which changes the list it walks, hands over every kid of the parent but the stream |
| PriorityTree.Relink | lib/http/h2_bundle.go:8268-8286 | the relinking part of AdjustStream, on heap nodes, is the change of the dependency tree that RFC 7540 describes, and its links are consistent |
| PrioritySort.SortKids | lib/http/h2_bundle.go:8118-8126 | detaching the kids into a shared scratch slice, sorting them by any permutation and linking them in again leaves every parent as it was and moves only those kids |
| PriorityScheduler.Scheduler.NeedSort | lib/http/h2_bundle.go:8101-8108 | whether two kids differ in weight |
| PriorityScheduler.Scheduler.Walk | lib/http/h2_bundle.go:8089-8133 | from any node: false only if every queue at or below it is exhausted; otherwise one node gives up a frame, and of the nodes from which it depends down to it no other had one to give; the dependency tree is unchanged by all the sorting; the visits recorded are distinct nodes with frames at or below it: all of them if nothing is found, otherwise nodes that had nothing to give and last the one that gave |
| PriorityScheduler.Scheduler.Visit | lib/http/h2_bundle.go:8090-8092 | records the visit, as nothing else does; the node gives up a frame exactly unless its queue is exhausted, of at most the throttle limit below an open parent |
| PriorityWalk.AfterReorder | lib/http/h2_bundle.go:8118-8133 | what a walk finds after sorting is what it finds in the tree as it was |
| PriorityScheduler.Scheduler.Pop | lib/http/h2_bundle.go:8307-8330 | terminates on every well-formed tree; false if and only if every queue is empty or starts with DATA held back by a used-up window; the tree is unchanged; the visits recorded in this call are distinct nodes with frames, all such nodes if it answers false, and otherwise end with the node that gave the frame, none above which had one to give; byte counts and windows change by exactly the frame returned; true sums stay true sums |
| PriorityScheduler.NextThrottle | lib/http/h2_bundle.go:8318-8326 | the out-of-order limit stays positive through 32-bit wrap-around |
| PriorityScheduler.Scheduler.UpdateThrottle | lib/http/h2_bundle.go:8318-8326 | the limit follows NextThrottle |
| PriorityScheduler.Scheduler.OpenStream | lib/http/h2_bundle.go:8183-8208 | a stream gets a node under its pusher or the root, or its idle node becomes open where it is |
| PriorityScheduler.Scheduler.Push | lib/http/h2_bundle.go:8290-8305 | the frame goes to the end of its stream's queue, or of the root's for a stream without a node |
| PriorityScheduler.Scheduler.CloseStream | lib/http/h2_bundle.go:8210-8233 | the node's bytes leave the counts above it and its queue is dropped; an eviction removes the victim and splices its kid; without eviction true sums stay true sums |
| PriorityScheduler.Scheduler.AdjustStream | lib/http/h2_bundle.go:8235-8288 | ends in an acyclic tree rooted at 0 with consistent links on the same nodes, equal to the tree RFC 7540 asks for; weights change for this stream only; a new node goes to the end of the list of idle nodes and the oldest one of a full list is discarded; unknown old streams change nothing |
| PriorityScheduler.Scheduler.RememberIdle | lib/http/h2_bundle.go:8332-8344 | the list of idle nodes never exceeds its size: the new node is last, and the oldest entry is given up exactly if the list was full |
| PrioritySums.GrowKeepsSums | lib/http/h2_bundle.go:8076-8081 | counts that grow by the same amount at a node and above it stay true sums of the bytes below each node |
| PrioritySums.WalkKeepsSums | lib/http/h2_bundle.go:8118-8126 | a walk of the whole tree keeps true sums, across all its sorting and relinking |
| PriorityEviction.Unhook | lib/http/h2_bundle.go:8346-8352 | removeNode's loop moves the first kid only, since it follows the next link of a kid it has already moved |
| PriorityEviction.RemoveKeepsTreeIff | lib/http/h2_bundle.go:8346-8352 | removing a node leaves a tree on the other nodes if and only if it has at most one kid |
| PriorityRuns.Exercise | lib/http/h2_bundle.go:8183-8352 | any list of OpenStream, CloseStream, AdjustStream, Push, Pop and changes of windows, from a new scheduler, up to the first operation that panics or would evict a node that is gone or has two kids: the tree is well formed, and for the connection and any stream that is not closed, and not reprioritized before it is open where that can fill the list of idle nodes, what came out followed by what is queued at the root and at its node is what went in, byte by byte and mark by mark in push order; no frame but a last piece carries END_STREAM or the reply channel; its payload waits at its own node |
| PriorityRuns.Forgotten | lib/http/h2_bundle.go:8332-8344 | a run in which an open stream loses its frame: its node was listed as idle, and is discarded for the next idle stream |
| PriorityRuns.CanRun | lib/http/h2_bundle.go:8183-8288 | decides, from the fields of the scheduler, whether an operation panics or would evict a node that is gone or has two kids or more |
| PriorityRuns.TwoKids | lib/http/h2_bundle.go:8194-8208 | a run that makes a node with two kids: two streams pushed by a third |
| Frames.GetHeaderPutHeader | lib/http/h2_bundle.go:780-792 | a frame header is read back as written, with 24-bit length and the reserved bit of the id dropped |
| Frames.PriorityReadBack | lib/http/h2_bundle.go:1569-1586 | priority fields are read back, the exclusive bit included |
| Frames.SettingsReadBack | lib/http/h2_bundle.go:1224-1235 | the value found for a setting is that of its first entry |
| Frames.ParseReadBack | lib/http/h2_bundle.go:1107-1800 | for each frame type the parser inverts the printer, on every readable request |
| Frames.ReadsBackIff | lib/http/h2_bundle.go:1003-1036 | a frame that the writer accepts is read back as written, whatever follows it, if and only if it is readable (no empty HEADERS fragment, no over-large initial window, a 31-bit id, no raw frame of a known type), within the read limit and in order |
| FrameStreams.ReadsAllBackIff | lib/http/h2_bundle.go:1003-1036 | any sequence of frames, concatenated and followed by anything, is read back as the same sequence if and only if each is readable and within the limit and their order is legal; what follows stays unread |
| FrameStreams.OrderIffUnits | lib/http/h2_bundle.go:1050-1084 | checkFrameOrder lets a sequence through with no block open if and only if it consists of single frames and whole header blocks: HEADERS, then CONTINUATION on the same stream up to END_HEADERS |
| Framing.Framer.EndWrite | lib/http/h2_bundle.go:886-906 | fills the length into the first three bytes of the buffer and writes it once, or refuses a payload of 2^24 bytes or more |
| Framing.Framer.WriteDataPadded | lib/http/h2_bundle.go:1162-1183 | filling the write buffer step by step comes to the encoding that the round trip is proved for, or to the same refusal with nothing written |
| Framing.Framer.WriteHeaders | lib/http/h2_bundle.go:1504-1539 | filling the write buffer step by step comes to the encoding that the round trip is proved for, or to the same refusal with nothing written |
| Framing.Framer.WritePriority | lib/http/h2_bundle.go:1592-1607 | filling the write buffer step by step comes to the encoding that the round trip is proved for, or to the same refusal with nothing written |
| Framing.Framer.WriteRstStream | lib/http/h2_bundle.go:1630-1637 | filling the write buffer step by step comes to the encoding that the round trip is proved for, or to the same refusal with nothing written |
| Framing.Framer.WriteSettings | lib/http/h2_bundle.go:1255-1262 | filling the write buffer step by step comes to the encoding that the round trip is proved for, or to the same refusal with nothing written |
| Framing.Framer.WriteSettingsAck | lib/http/h2_bundle.go:1268-1271 | filling the write buffer step by step comes to the encoding that the round trip is proved for, or to the same refusal with nothing written |
| Framing.Framer.WritePushPromise | lib/http/h2_bundle.go:1756-1778 | filling the write buffer step by step comes to the encoding that the round trip is proved for, or to the same refusal with nothing written |
| Framing.Framer.WritePing | lib/http/h2_bundle.go:1296-1304 | filling the write buffer step by step comes to the encoding that the round trip is proved for, or to the same refusal with nothing written |
| Framing.Framer.WriteGoAway | lib/http/h2_bundle.go:1339-1345 | filling the write buffer step by step comes to the encoding that the round trip is proved for, or to the same refusal with nothing written |
| Framing.Framer.WriteWindowUpdate | lib/http/h2_bundle.go:1397-1405 | filling the write buffer step by step comes to the encoding that the round trip is proved for, or to the same refusal with nothing written |
| Framing.Framer.WriteContinuation | lib/http/h2_bundle.go:1666-1677 | filling the write buffer step by step comes to the encoding that the round trip is proved for, or to the same refusal with nothing written |
| Framing.Framer.WriteRawFrame | lib/http/h2_bundle.go:1782-1786 | filling the write buffer step by step comes to the encoding that the round trip is proved for, or to the same refusal with nothing written |
| Framing.Framer.CheckOrder | lib/http/h2_bundle.go:1050-1084 | the order automaton on the field lastHeaderStream; the last frame that its error message looks at exists |
| Framing.Framer.ReadNext | lib/http/h2_bundle.go:1003-1036 | reads, parses and checks the order as the function of the round trip does, error paths and bytes consumed included |
| HeaderBlocks.PiecesCover | lib/http/h2_bundle.go:7530-7541 | the fragments of a block, in order, are the block |
| HeaderBlocks.PiecesSized | lib/http/h2_bundle.go:7530-7541 | every fragment has between one byte and the frame size |
| HeaderBlocks.PiecesInOrder | lib/http/h2_bundle.go:7598-7609 | the frames of a block are HEADERS and CONTINUATION on one stream with END_HEADERS on the last and only there, and pass checkFrameOrder |
| HeaderBlocks.PromiseInOrderIff | lib/http/h2_bundle.go:7649-7660 | a promise passes checkFrameOrder if and only if its block fits in one frame, since the check does not know PUSH_PROMISE to open a block |
| HeaderBlocks.SplitHeaderBlock | lib/http/h2_bundle.go:7520-7542 | writes the whole block, or nothing and an error exactly for an invalid stream id |
| HeaderBlocks.ClientWriteHeaders | lib/http/h2_bundle.go:6213-6238 | writes the frames the framer accepts, ignoring what it answers; terminates for every positive frame size |
| HeaderBlocks.ClientKeepsAllIff | lib/http/h2_bundle.go:6213-6238 | the client's frames all go out if and only if the stream id is valid and no chunk is over the 24-bit length |
| HeaderBlocks.ChunkShortensIff | lib/http/h2_bundle.go:6216-6221 | a cut shortens a non-empty block if and only if the frame size is positive |
| HeaderBlocks.NextIsContinuation | lib/http/h2_bundle.go:1976-1980 | inside a block the next frame that ReadFrame returns is a CONTINUATION frame, so the type assertion never fails |
| HeaderBlocks.IllegalReadsSkipOrder | lib/http/h2_bundle.go:1053-1055 | with AllowIllegalReads any readable frame comes through inside a block, so the assertion needs the order check |
| HeaderBlocks.ReadMetaFrame | lib/http/h2_bundle.go:1915-1989 | refuses to run with AllowIllegalReads; otherwise collects the fragments up to END_HEADERS, or stops at the first error of the reader or of the header decoder, which is asked after each fragment and at the end |
| HeaderBlocks.BlockReadBack | lib/http/h2_bundle.go:1966-1981 | any non-empty block, cut at any positive size and written, is read back whole, and nothing after it is read, if and only if the header decoder takes every chunk and the end; otherwise the answer is a compression error |
| ServerTrace.ReplayIsSafe | lib/http/h2_bundle.go:3827-3896 | over every run: at most one GOAWAY, its id at least every client stream opened; no client stream opens after shutdown begins; no scheduler frame is taken after an error shutdown begins; no stream opens twice; never more than one write outstanding |
| ServerTrace.BytesKept | lib/http/h2_bundle.go:3717-3719 | over every run: the DATA bytes put into the scheduler for a stream that was never closed are those taken out plus those queued |
| ServerInvariant.CountersSmall | lib/http/h2_bundle.go:4404-4408 | the 32-bit stream counters never wrap |
| Server.ServerConn.State | lib/http/h2_bundle.go:3317-3334 | idle exactly for ids above the largest seen of their parity; open or half-closed exactly for mapped streams |
| Server.ServerConn.WriteFrame | lib/http/h2_bundle.go:3691-3721 | into the scheduler unless the stream is closed (resets excepted) or 100-continue comes too late; if a write is outstanding or the loop is running, exactly that happens; otherwise nothing that could be written is left unwritten |
| Server.ServerConn.ScheduleFrameWrite | lib/http/h2_bundle.go:3827-3863 | returns at once while a write is outstanding or the loop runs; otherwise terminates with an asynchronous write in flight or with no GOAWAY, SETTINGS ack, flush or permitted sendable frame left, despite the re-entrant calls; the two one-writer panics do not occur; if every frame that can go out is inert for its stream, no panic occurs, streams and windows are untouched and less remains due; if one queue alone is ready its first frame is started, and a frame that must not be started is a panic once only window updates can come before it |
| Server.ServerConn.ScheduleOne | lib/http/h2_bundle.go:3833-3861 | GOAWAY first, then the SETTINGS ack, then the scheduler if permitted, then a flush; each turn starts an asynchronous write or leaves less work |
| Server.ServerConn.StartFrameWrite | lib/http/h2_bundle.go:3726-3766 | panics about a second write exactly if one is outstanding, and otherwise about a stream exactly if the frame is for a closed one, or for one that has ended here and the frame is neither the reset after a handler's panic nor a window update; otherwise the write is started and noted, synchronously only for frames of known size |
| Server.ServerConn.WroteFrame | lib/http/h2_bundle.go:3775-3812 | panics about no write exactly if none is outstanding, and about a stream closed twice exactly for the reset after a handler's panic on a closed stream; END_STREAM half-closes and resets an open stream and closes a half-closed one, resets close their stream; then the scheduler is asked again; a frame still queued for a stream that ends so is a panic where nothing else can come before it |
| Server.ServerConn.GoAwayIn | lib/http/h2_bundle.go:3884-3896 | shutdown begins once, with the first code; later calls change nothing; with a write outstanding nothing else happens |
| Server.ServerConn.ResetStream | lib/http/h2_bundle.go:3904-3910 | RST_STREAM is queued and the stream, if still mapped, is marked |
| Server.ServerConn.CloseStream | lib/http/h2_bundle.go:4053-4082 | the stream leaves the map, its counter and the scheduler for good; its unread bytes are returned to the connection's window; while a write is outstanding and other streams are open the whole new state is exact, with a panic exactly if the window overflows; a second close is the panic; with unread bytes nothing that could be written is left unwritten |
| Server.ServerConn.SendConnWindowUpdate | lib/http/h2_bundle.go:4706-4731 | queues the update and returns the bytes to the connection's window: the whole new state is exact while a write is outstanding or the loop runs, with a panic exactly on overflow; otherwise at least the bytes are returned, and nothing that could be written is left unwritten; no bytes, no effect |
| Server.ServerConn.AllocatePromisedID | lib/http/h2_bundle.go:5219-5250 | a promised stream opens exactly if push is enabled, the client's limit is not reached and an id is left; it is the next even id, half-closed from the start |
| Server.ServerConn.NewStream | lib/http/h2_bundle.go:4383-4415 | a stream that never existed before; the counter of its parity goes up by one, without 32-bit wrap-around, and the client's stays within the advertised limit |
| Server.ServerConn.Take | lib/http/h2_bundle.go:3849-3854 | a scheduler gives up the first frame of a ready queue, or a piece of at least a byte and at most what flow control allows; both windows are debited by exactly the piece |
| ServerEvents.SendStreamWindowUpdate | lib/http/h2_bundle.go:4706-4731 | queues the update and returns the bytes to the stream's window; its overflow panic is out of reach |
| ServerEvents.EndStream | lib/http/h2_bundle.go:4233-4245 | closes the pipe for writing and half-closes the stream; a panic exactly if there is no pipe |
| ServerEvents.RefuseData | lib/http/h2_bundle.go:4161-4175 | unwanted DATA only passes through the connection's window; the answer depends on the window and on a reset already queued |
| ServerEvents.AcceptData | lib/http/h2_bundle.go:4176-4210 | the answer follows declared length and windows; accepted DATA is in the pipe whole and counted, and without padding the whole new state is exact; padding is returned |
| ServerEvents.Receive | lib/http/h2_bundle.go:4184-4200 | both windows are debited and the bytes fit in a buffer of 65535, because the ledger is exact |
| ServerEvents.ProcessData | lib/http/h2_bundle.go:4148-4211 | ignored after an error shutdown, an error for idle streams, accepted as above for an open request without trailers, refused as above otherwise; the ledger of every stream whose request is not over stays exact |
| ServerEvents.ProcessHeaders | lib/http/h2_bundle.go:4258-4334 | ignored in shutdown; even and old ids are a connection error; on a mapped stream they are trailers, or ignored if a reset is queued; a new id opens a stream unless the limit is reached; answer and new state are exact in every case |
| ServerEvents.ProcessTrailerHeaders | lib/http/h2_bundle.go:4336-4362 | second trailers are a connection error; trailers that do not end the stream, or are malformed, reset it; otherwise the request is over, or, exactly if it never had a body, the nil pipe is a panic; answer and new state are exact |
| ServerEvents.ProcessSetting | lib/http/h2_bundle.go:4102-4131 | each setting changes its own field; invalid values change nothing; the answer is exact |
| ServerEvents.ProcessInitialWindowSize | lib/http/h2_bundle.go:4133-4146 | refused exactly if some mapped stream's window cannot move by the difference; otherwise all of them do; if refused, only some have moved, in whatever order the map was visited |
| ServerEvents.ApplySettings | lib/http/h2_bundle.go:1235-1248 | the entries take effect in order up to the first that is refused, which is the answer: push and stream limit have the last values given before it, and windows and frame size are those that the accepted entries lead to, plus some moved windows if the refused entry overflows one |
| ServerSettings.TakenFrom | lib/http/h2_bundle.go:1235-1248 | the entry at which a list of settings is refused is the first one with a bad value, or that overflows a window as the entries before it have left it |
| ServerEvents.ProcessSettings | lib/http/h2_bundle.go:4084-4100 | an ack counts down; otherwise the entries are applied in order; if one is refused nothing else happens, and without one an ack is due and the scheduler is asked |
| ServerEvents.ProcessWindowUpdate | lib/http/h2_bundle.go:4013-4036 | the answer is exact; the right window grows, with 32-bit arithmetic, and from that state the scheduler is asked, which can only use the window up |
| ServerEvents.ProcessResetStream | lib/http/h2_bundle.go:4038-4051 | an error for idle streams; a mapped stream is closed as above, and its unread bytes are returned |
| ServerEvents.ProcessPing | lib/http/h2_bundle.go:3996-4011 | answered unless it is an ack or an error shutdown has begun |
| ServerLoop.ProcessGoAway | lib/http/h2_bundle.go:4213-4224 | a GOAWAY from the client begins a graceful shutdown, unless one has begun, and ends pushing |
| ServerLoop.NoteBodyRead | lib/http/h2_bundle.go:4680-4688 | reported bytes leave the count of unreported ones and go back to the windows, to the stream's exactly while its request is not over; to the connection's, exactly them while a write is outstanding, with a panic exactly on overflow; nothing that could be written is left unwritten |
| ServerLoop.HandlerRead | lib/http/h2_bundle.go:4752-4769 | bytes a handler takes out of the pipe are unreported until it reports them; the ledger of the stream is unchanged, and so is everything else |
| ServerLoop.StartPush | lib/http/h2_bundle.go:5205-5259 | a promise is queued exactly for an open or half-closed mapped parent with push enabled, and that is all while a write is outstanding |
| ServerLoop.ProcessFrame | lib/http/h2_bundle.go:3960-3994 | the first frame must be SETTINGS; each frame has the effect and the answer of its handler, stated above; ignored types change nothing; the nil pipe is met exactly by HEADERS that end a request without a body |
| ServerLoop.Turn | lib/http/h2_bundle.go:3547-3588 | any event keeps all of the above; an event that looks for frames to write leaves none, and one that does not leaves as much as there was, refused SETTINGS and the reset of a stream without unread bytes apart; where a write was under way or nothing left to write, it is so again if and only if the event does not stall the connection; a stall is decided by the state and the frame before the turn, except that after a window overflow the condition is only necessary; the nil-pipe panic and the second close occur under exact conditions |
| ServerLoop.FrameLeaves | lib/http/h2_bundle.go:3960-3994 | which frames and answers look for frames to write: SETTINGS taken whole, a window update for the connection or a mapped stream, PING, DATA with padding or not wanted, the reset of a stream with unread bytes, GOAWAY, every stream error, and a connection error outside shutdown |
| ServerLoop.RefusedSettings | lib/http/h2_bundle.go:4094-4096 | after a refused SETTINGS frame in shutdown, something could be sent and nobody looks exactly if no write is outstanding, the shutdown is graceful and some queue's head can go out under the windows that the entries before the bad one have left |
| ServerLoop.HarmlessEvent | lib/http/h2_bundle.go:4133-4146 | a frame that gives no initial window size never stalls a connection with nothing left to write |
| ServerLoop.RestingFacts | lib/http/h2_bundle.go:3317-3334 | between events: counters equal the odd and even ids in the map and the client's is within its limit, every mapped stream is open or half-closed, at most one write is outstanding, window plus buffered plus unreported bytes are 65535 for every stream whose request is not over, a receiving stream has a pipe that can be written, and the run so far is safe |
| ServerLoop.Serve | lib/http/h2_bundle.go:3505-3590 | every run over every sequence of events, whether it ends in a panic or not, keeps the promises of its trace and never panics over its one writer; unless some turn stalled the connection and no event since has looked for frames to write, it ends with a write under way or nothing left to write; without an initial window size in any SETTINGS frame no turn stalls |
| ServerRuns.StallingRun | lib/http/h2_bundle.go:4084-4146 | a run that stalls, however frames are buffered: no window for new streams, a request, a response that waits, a graceful shutdown, then SETTINGS with a window and a bad value; no write is under way and a frame could be sent |
| ServerPanics.SecondHeadersPanic | lib/http/h2_bundle.go:4336-4362 | a run that ends in the nil-pipe panic: two HEADERS that each end the same request |
| ServerPanics.ResetTwicePanics | lib/http/h2_bundle.go:3805-3806 | a run that ends in a second close: the client resets a stream while the reset after its handler's panic is being written |
| ServerPanics.WriteOnHalfClosedPanic | lib/http/h2_bundle.go:3733-3742 | a run that ends in a write on a half-closed stream, however frames are buffered: a promise queued while the last frame of the response to an open request is being written |
| ServerPanics.WriteOnClosedPanic | lib/http/h2_bundle.go:3743-3745 | a run that ends in a write on a closed stream: the same for a request that is over with unread bytes, whose window update is written at once and lets the promise out |
| ServerPanics.WindowOverflowPanic | lib/http/h2_bundle.go:4725-4730 | a run that ends in the overflow of the connection's window, however frames are buffered, though every stream stays within its window: 32768 streams each send a whole window and are reset before their handlers read it, and the bytes are returned twice |
| FixedBuffer.Buffer.Read | lib/http/h2_bundle.go:486-497 | hands out the oldest bytes, as many as fit; an empty buffer is an error |
| FixedBuffer.Buffer.Write | lib/http/h2_bundle.go:506-520 | accepts as much as there is room for, counting the room in front, which compacting makes usable; less than all is an error |
| FixedBuffer.Buffer.Compact | lib/http/h2_bundle.go:508-512 | moves the unread bytes to the front unchanged |
| FixedBuffer.Exercise | lib/http/h2_bundle.go:486-520 | over every run of reads and writes it is a bounded first-in first-out queue |
| IdlePool.Transport.TryPutIdleConn | lib/http/transport.go:669-732 | stored if and only if every guard passes; goes to the end of both lists; over the global limit the connection put longest ago, and only it, is evicted; the two duplicate checks agree |
| IdlePool.Transport.EvictOldest | lib/http/transport.go:718-722 | the back of the LRU leaves both lists |
| IdlePool.Transport.GetIdleConn | lib/http/transport.go:756-791 | the connection of the host put most recently among the usable ones; the newer unusable ones are dropped, other hosts are untouched |
| IdlePool.Transport.RemoveIdleConn | lib/http/transport.go:801-827 | the connection leaves both lists, if it is there |
| IdlePool.Transport.Remove | lib/http/transport.go:794-798 | the same, keeping agreement and limits |
| IdlePool.Transport.CloseIdleConnections | lib/http/transport.go:505-517 | empties both lists and closes exactly the connections in them |
| IdlePool.Transport.WantConn | lib/http/transport.go:737-754 | idle connections are wanted again, unless keep-alives are disabled |
| IdlePool.AgreesAppend | lib/http/transport.go:716-717 | putting a connection keeps each host's list equal to the LRU order filtered by its key |
| IdlePool.AgreesWithout | lib/http/transport.go:801-827 | removing one keeps it too, and leaves no empty list |
| IdlePool.GetFacts | lib/http/transport.go:766-771 | the last usable connection of a host's list is the one put most recently |
| IdlePool.Exercise | lib/http/transport.go:669-827 | every run keeps lists and LRU in agreement, without duplicates or empty lists, and both limits |
| Pipeline.StepPhases | processing.go:193-235 | each step of any goroutine keeps the phases of main, workers, writer and monitor in accord with their channels |
| Pipeline.NoPanic | processing.go:228-233 | no step sends on a closed channel or closes one twice |
| Pipeline.NoDeadlock | processing.go:193-235 | with a worker, or with no target to hand over, a pipeline that has not finished can always take a step |
| Pipeline.StepConserved | processing.go:217-223 | results written, queued, owed by workers and due for waiting targets add up to ConnectionsPerHost per target |
| Pipeline.StepTallied | scanner.go:30-44 | statuses counted, in the channel and about to be sent add up to the calls of scanners of that name |
| Pipeline.RunsEnd | processing.go:193-235 | every schedule is shorter than a bound fixed at the start, and with a worker or without targets it stops only when finished |
| Pipeline.DeadlocksIff | processing.go:193-235 | some schedule gets stuck before the end if and only if there are targets and no workers |
| Pipeline.FinishedRun | processing.go:193-235 | at the end of any schedule that finishes, whatever the number of workers, each target has led to exactly ConnectionsPerHost results for each time it was listed, and per scanner name successes plus failures are the calls |
| Hex.ParseHexUint | lib/http/chunked.go:233-252 | the loop computes the positional value of up to 16 digits without overflow, and reports a bad byte or a 17th digit, whichever comes first |
| Hex.ParsePrint | lib/http/chunked.go:233-252 | every 64-bit length is parsed back from what is printed |
| Chunked.ChunkedWriter.Write | lib/http/chunked.go:193-217 | one chunk per non-empty write |
| Chunked.ChunkedWriter.Close | lib/http/chunked.go:219-222 | the zero chunk ends the stream |
| Chunked.TrimTrailingWhitespace | lib/http/chunked.go:142-147 | drops trailing space, tab, CR and LF |
| Chunked.ReadChunkLine | lib/http/chunked.go:119-140 | a line within the buffer, without trailing space and chunk extension, or the error for a line that is missing or too long |
| Chunked.HeaderRead | lib/http/chunked.go:119-140 | a chunk header is read as the length it was printed from |
| Chunked.ChunkedReader.BeginChunk | lib/http/chunked.go:43-57 | the next chunk's length, or the end at the zero chunk; on a well-formed stream never another error |
| Chunked.ChunkedReader.CheckEnd | lib/http/chunked.go:71-85 | the two bytes after a chunk, unless waiting for them could block data that is there |
| Chunked.ChunkedReader.Read | lib/http/chunked.go:68-113 | fills the buffer with the next bytes of the payload; makes progress while payload remains; then reports the end; errors stick |
| Chunked.Transfer | lib/http/chunked.go:43-252 | for all writes, read sizes and short reads: what is read is a prefix of what was written, all of it at the end, with the bytes after the zero chunk unread; the end comes once there were more non-empty reads than bytes |
| OutputFilter.Processor.Process | lib/output/process.go:272-299 | the recursive methods and their loops compute the function below, and the path stack is restored after every call |
| OutputFilter.Processor.ProcessStruct | lib/output/process.go:146-172 | each settable field is wiped or replaced by its copy; the others keep what they hold |
| OutputFilter.Processor.ProcessItems | lib/output/process.go:226-267 | the elements of arrays and slices, in order |
| OutputFilter.Processor.ProcessMap | lib/output/process.go:204-223 | the entries of a map, whatever order its keys come in |
| OutputFilter.VerboseIsCopy | lib/output/process.go:272-299 | verbose processing returns an equal copy |
| OutputFilter.OutputIsClean | lib/output/process.go:131-143 | non-verbose output holds no debug data in fields reached through exported fields |
| OutputFilter.Idempotent | lib/output/process.go:272-299 | processing twice is processing once |
| OutputFilter.StripsExactly | lib/output/process.go:131-172 | two values have the same output if and only if they differ at most in debug fields reached through exported fields |
| SshBuffer.Buffer.Write | lib/ssh/buffer.go:44-51 | a new element behind the tail; the list stays well formed |
| SshBuffer.Buffer.Eof | lib/ssh/buffer.go:55-61 | marks the end and changes nothing else |
| SshBuffer.Buffer.Read | lib/ssh/buffer.go:65-98 | as many bytes as there are and fit, in order; the end only if closed and nothing remains; waits only if open and nothing remains |
| SshBuffer.Exercise | lib/ssh/buffer.go:44-98 | over every interleaving: the bytes read are a prefix of those written, all of them when the end is seen |
| Cidr.IncrementIP | input.go:74-81 | in place, from the last byte: addition of one with carry |
| Cidr.IncrementedValue | input.go:74-81 | addition of one that wraps to 0 at the end of the address space |
| Cidr.DuplicateIP | input.go:83-87 | a fresh copy |
| Cidr.ContainsIff | input.go:128-129 | an address of the network's length is contained exactly if it lies among the 2^(bits-p) addresses from the masked one on, and is not IPv4-mapped unless the network is: such a cursor is cut to four bytes before the comparison |
| Cidr.LeavesBlock | input.go:129-129 | from an address of the block the cursor goes to the next one; after the last it is outside, also when it wraps |
| Cidr.Expand | input.go:126-136 | for every IPv4 and IPv6 block but 0.0.0.0/0: terminates with consecutive addresses from the first of the block on, all of the block or, for an IPv6 block that runs into ::ffff:0:0/96, those before it; none changes although the cursor is incremented in place |
| Cidr.WholeIff | input.go:128-129 | a block is expanded whole if and only if it is IPv4, has a prefix of 96 bits or more, or misses ::ffff:0:0/96 |
| Cidr.CutShortBlocks | input.go:129-129 | ::/0 and ::/80 are left at ::ffff:0:0, after 0xffff00000000 addresses |
| Cidr.LoopEndsIff | input.go:129-129 | the cursor leaves its network after some number of increments if and only if the block is not 0.0.0.0/0 |

## Left out

- PriorityScheduler.Scheduler.RemoveNode: requires at most one kid, since with more the remaining nodes are no tree (RemoveKeepsTreeIff); CloseStream and AdjustStream require the same of the node they would evict.
- PriorityScheduler.Scheduler.CloseStream: requires the node it evicts to be in the tree with at most one kid. A node that is listed both as idle and as closed can be evicted twice in the source; the second time is not covered.
- PriorityScheduler.Scheduler.AdjustStream: requires the same. An idle node that was opened later stays in the list of idle nodes; its eviction is covered only while it has at most one kid.
- PriorityRuns.Exercise: a stream that is reprioritized before it is open is covered only if the list of idle nodes is unbounded or longer than the number of reprioritizations in the run, since its node may otherwise be evicted with its frames (Forgotten).
- HeaderBlocks.ReadMetaFrame: the header decoder is any function of the bytes so far; errors found in the fields themselves (pseudo-headers, invalid names and values, sizes) are not modelled.
- HeaderBlocks.ClientWriteHeaders: requires a positive frame size, without which the loop does not end; write errors of the connection are not modelled.
- ServerLoop.Turn: the pipe of a request body is kept as a number of bytes; its contents are the subject of FixedBuffer. Handlers read between two events.
- Server.ServerConn.SendConnWindowUpdate: with no write outstanding, gives a lower bound for the connection's inbound window, because streams closed on the way return bytes too; exact conservation at connection level does not hold in the code, where bytes of a closed stream can be returned twice. The same holds of Server.ServerConn.CloseStream and ServerLoop.NoteBodyRead.
- Server.ServerConn.Pop: takes any queue that is ready and any positive part of its first DATA frame that flow control allows, which both write schedulers do; the order and the part they choose are the subject of their own models.
- Cidr.Expand: requires a block other than 0.0.0.0/0; see LoopEndsIff.
- Chunked.ChunkedReader.Read: promises payload only for streams that the chunked writer wrote; for others only that errors stick and the rest of the buffer is untouched. Reads of zero bytes without an error are not modelled.
- When a whole run meets the panics about writing on half-closed or closed streams: StartFrameWrite says for which frames they occur, and ServerPanics has runs that meet them, but in general which frame comes next is the scheduler's choice. A push whose URL does not parse is the environment's.
- The content of header blocks (HPACK), pseudo-header checks and canonical header names; a header block is a sequence of bytes, a request is malformed or not.
- The HTTP/2 client apart from its header writer, and the server's preface, timers, connection hooks, handlers and closing of all streams at the end.
- Errors and short writes of the underlying connection, and logging.
- Weights beyond their effect on sorting: `sort` is some permutation, so no claim is made about the share of bandwidth.
- Dialing, proxies, TLS, timers of idle connections, and the hand-over of a connection to a waiting dialer beyond its outcome.
- Callbacks of the output processor, cyclic values, and capacities of slices.
- Parsing of input lines, scanners themselves, the output encoder, and fatal exits on input or output errors.
- MySQL, cookie, file-server and configuration code, and the Python scripts: easier members or network glue.
