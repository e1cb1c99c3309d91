# io_uring servers: a verified model

The repository holds servers and tools that talk to the Linux kernel through io_uring: an echo server written as an event
loop, the same echo server as C++20 coroutines, a web server on coroutines, a web server that owns its requests on the
heap, and a `cat` that works on the raw rings. All of their state lives in entries that travel from a submission queue
through the kernel to a completion queue, in any order. This project models those programs in Dafny and proves what they
keep over every run.

## How it is built

* `Sums`, `Uring`, `Accounts`, `Streams`: the kernel as a nondeterministic transition system over a submission queue, armed
  operations, a completion queue, a pool of free buffers, buffer contents, open descriptors and byte streams. Every
  conservation law is one weighted count of the entries in flight (`Accounts.Balanced`).
* `EchoLoop`, `EchoProtocol`, `EchoTheorems`, `EchoQueue`, `EchoExits`: the event loop. Number of buffers and ring size are
  parameters.
* `EchoCoroutine`, `CoroutineRefinement`, `CoroutineSafety`, `CoroutinePass`, `CoroutineExits`: the coroutine form, a frame
  being a suspension point, a parameter and a promise; the forward simulation onto the event loop; and what holds where the
  two part.
* `WebServer`, `WebProtocol`, `WebTheorems`, `WebPass`, `WebFiles`, `WebQueue`, `WebExits`: the web server of `server/`,
  where descriptors are closed and given out again.
* `Tasks`: the tag in the 64 bits of `user_data`, and the move-only owner of a coroutine frame.
* `Ring`, `Cat`: rings with 32-bit counters that wrap around, and the program that reads files through them.
* `HeapServer`: ownership of requests, buffers and sockets, and which text is answered on which socket.
* `CText`, `CBuffer`, `HttpRequest`, `HttpResponse`, `FileService`, `HttpConn`: HTTP/1.0 text. The reference parser follows
  sections 5.1, 6, 7 and 10 of RFC 1945.

Each program is a class whose methods update its fields as the source does, proved equal to a function on values; the
theorems about all runs are about those functions. Parameters named `junk` stand for memory the source does not
initialise.

## What is assumed of the environment

These are the guards of the kernel's steps, or preconditions where the source has undefined behaviour.

* The kernel consumes submission entries in order, a submit call returns once all of them are consumed, and a
  PROVIDE_BUFFERS entry takes effect when it is consumed. Everything else completes at any time and in any order, also
  while the server handles a batch.
* A receive that completes with anything but `-ENOBUFS` carries a selected buffer; the servers read `flags >> 16`
  without a check (`demo/io_uring_echo_server.c:149`). Until then it may take and put back buffers.
* `accept` returns a descriptor that is not open.
* A send may be cut short. The byte-for-byte statements say so: the `trail` of a connection records which bytes left and
  which tails were left out, because the servers ignore the result of a write.
* Web server: the requests it is handed are among those it is defined for, in the theorems of `WebTheorems`.
  `WebFiles.DefinedIff` has no such condition: over every run the server becomes undefined exactly by another request or
  by a completion whose entries do not fit the submission queue, as `io_uring_get_sqe` then returns a NULL that is used
  without a check. With at most l connections and l + 2 entries only the requests are left
  (`WebFiles.DefinedIffAnswerable`).
* `stat`, `open` and `read` are a map from path to bytes, and a read returns the whole file.

## Facts of the code that the statements depend on

* The coroutine keeps `cqe->res` in a `size_t`, so `size_r <= 0` is true of 0 alone. A failed read is taken for a huge
  success and a send is queued; `CoroutineRefinement.AgreesIffReadSucceeds` proves that, with room in the queue, this is
  the only difference between the two echo servers.
* The echo servers shut sockets down and never close them, so a descriptor is adopted once.
* A line without the tokens it needs makes both web servers dereference NULL; `HttpRequest.CrashIff` says which lines.
* `demo/uring_server.c` forgets a request whose read returned nothing: two blocks and the socket stay allocated and open.
* No server looks at the number of its connections. `EchoQueue.OverfillsIff` proves that the echo loop needs 2l + 1
  submission entries for l connections, no fewer; the 2048 entries it has serve 1023 of its 4096 connections at once. The
  web server queues less in a pass and needs exactly l + 2 (`WebQueue.OverfillsIff`).
* Every completion with `-ENOBUFS` ends the three servers with a buffer group, whatever it completes. With buffers and
  entries for all connections no receive brings it, but `accept` and `send` can report it for want of kernel memory, and
  then the process exits (`EchoExits.ShortageExits`); `EchoExits.StopsIff` and its like prove that nothing else ends it.
* Neither web server checks that names fit its arrays: `final_path` has 256 bytes in `server/http_conn.h`, `final_path` and
  `small_case_path` have 1024 in `demo/uring_server.c`. `HttpConn.HttpConnection.HandleRequest` and `FileService.ServeIff`
  state exactly when a request is outside what the code is defined for. In `server/http_conn.h` every path that ends in a
  slash stands for the same short name, so those may be of any length.
* The web server has no check on what a read returned: 0 bytes and errors are outside what it is defined for as well.
* The answer to a missing file is sent with the length of the other error text (`server/http_conn.h:174`), 38 bytes more
  than it has; `HttpConn.SizeIsLengthIff` says that this is the only case.
* For an extension that is not listed, `demo/uring_server.c` sends what its stack buffer happens to hold, up to a NUL that
  need not be there, and `server/http_conn.h`, which does not lower-case extensions, sends no content type.
* The comment at `demo/uring_server.c:176` speaks of GET and POST; the code knows GET.
* `(int) file_sz / BLOCK_SZ` converts before it divides: the table is large enough exactly below 2 GiB.

## Model

| member | source | states |
|---|---|---|
| Uring.BufferFlags | demo/io_uring_echo_server.c:149 | the buffer the kernel selected comes back from `flags >> 16` |
| Accounts.IssueKeepsAccounts | demo/io_uring_echo_server.c:117 | submission of an entry keeps every conservation law: buffers, connections, announced descriptors, the listener, demand for buffers |
| Accounts.StepKeepsAccounts | demo/io_uring_echo_server.c:117-124 | so does every step the kernel may take on its own |
| Streams.StepKeepsStreams | demo/io_uring_echo_server.c:147-163 | no step of the kernel disturbs the bytes of a connection it does not concern, because no two entries share a connection or a buffer |
| EchoLoop.EchoServer.constructor | demo/io_uring_echo_server.c:112-113 | the loop is entered with one accept queued |
| EchoLoop.EchoServer.QueueSqe | demo/io_uring_echo_server.c:171-174 | an entry is queued, or the unchecked NULL of a full ring is met |
| EchoLoop.EchoServer.AddAccept | demo/io_uring_echo_server.c:171-181 | the accept entry and its tag |
| EchoLoop.EchoServer.AddSocketRead | demo/io_uring_echo_server.c:183-194 | the receive entry and its tag |
| EchoLoop.EchoServer.AddSocketWrite | demo/io_uring_echo_server.c:196-207 | the send entry carries the buffer in its operation and in its tag |
| EchoLoop.EchoServer.AddProvideBuf | demo/io_uring_echo_server.c:209-218 | the entry that gives a buffer back |
| EchoLoop.EchoServer.ShutdownSocket | demo/io_uring_echo_server.c:154 | a connection that ended is no longer served |
| EchoLoop.EchoServer.HandleCompletion | demo/io_uring_echo_server.c:123-165 | the dispatch on one completion, all branches, against the specification the theorems are about |
| EchoLoop.EchoServer.HandlePass | demo/io_uring_echo_server.c:117-167 | a pass handles the completions in order and stops only with the process |
| EchoProtocol.HandleEffect | demo/io_uring_echo_server.c:138-164 | a server that goes on has queued exactly the reply, adopted or shut down exactly the connection concerned |
| EchoProtocol.StepInv | demo/io_uring_echo_server.c:116-168 | every step of loop and kernel keeps the invariants |
| EchoProtocol.RunInv | demo/io_uring_echo_server.c:116-168 | they hold in every reachable state |
| EchoTheorems.BufferConservation | demo/io_uring_echo_server.c:102-163 | every buffer id is in exactly one place: pool, receive, unhandled receive completion, send, or queued return |
| EchoTheorems.OneOutstandingOperation | demo/io_uring_echo_server.c:112-164 | one accept outstanding; one operation per live connection, none for any other descriptor; a descriptor is adopted and shut down at most once |
| EchoTheorems.EchoIntegrity | demo/io_uring_echo_server.c:147-163 | what was received is, in order, the pieces that left, the tails that cut sends left out, and the chunk in flight; what was sent is that stream without those tails, and nothing is missing if and only if no send was cut short |
| EchoTheorems.WaitingIffOvercommitted | demo/io_uring_echo_server.c:129-163 | with an empty submission queue more receives wait than buffers are free if and only if more connections are live than buffers exist |
| EchoTheorems.LoopSuppliesFirst | demo/io_uring_echo_server.c:160-163 | in every reply a buffer is given back before the receive that may take it |
| EchoTheorems.ReplyKeepsSupply | demo/io_uring_echo_server.c:160-163 | that order keeps every prefix of the queue supplied with buffers |
| EchoTheorems.NoStarvation | demo/io_uring_echo_server.c:129-163 | with at most as many live connections as buffers no receive is ever refused one: the `exit` for `-ENOBUFS` is unreachable for reads |
| EchoTheorems.PassTerminates | demo/io_uring_echo_server.c:117-167 | unhandled completions and operations in the kernel only decrease during a pass, and it queues at most two entries per live connection and two more |
| EchoTheorems.PassIsProgram | demo/io_uring_echo_server.c:117-167 | a pass in a run of the system is `HandlePass` on the completions taken, in the order they were posted |
| EchoQueue.FaultIff | demo/io_uring_echo_server.c:138-174 | the handling of a completion meets the NULL of a full ring if and only if its reply does not fit |
| EchoQueue.QueueNeverOverfills | demo/io_uring_echo_server.c:77-164 | over every run with at most l connections and room for 2l + 1 entries `io_uring_get_sqe` never returns NULL |
| EchoQueue.OverfillsIff | demo/io_uring_echo_server.c:77-164 | some run with at most l connections overfills the ring if and only if it has fewer than 2l + 1 entries |
| EchoExits.ExitsIff | demo/io_uring_echo_server.c:123-136 | over every run the process has called `exit` if and only if the last step handled a completion with `-ENOBUFS`, or a PROVIDE_BUFFERS that failed |
| EchoExits.StopsIff | demo/io_uring_echo_server.c:116-168 | over every run with at most l connections, as many buffers and 2l + 1 entries: the server has stopped if and only if it just handled an accept or a send that the kernel had no buffer space for; failed and empty reads never stop it |
| EchoExits.RunsOn | demo/io_uring_echo_server.c:116-168 | without such a shortage no state of such a run is a stop |
| EchoExits.ShortageExits | demo/io_uring_echo_server.c:129-132 | an accept that fails with `ENOBUFS` ends the process: a run of four steps |
| EchoExits.AcceptsOnListener | demo/io_uring_echo_server.c:171-181 | over every run each accept queued is for the listening socket |
| EchoCoroutine.CoroutineServer.constructor | demo/io_uring_coroutine_echo_server.cpp:230-231 | no connections, one accept queued |
| EchoCoroutine.CoroutineServer.SuspendWith | demo/io_uring_coroutine_echo_server.cpp:83-92 | an await queues its entry with a copy of the promise's tag and suspends |
| EchoCoroutine.CoroutineServer.AwaitRead | demo/io_uring_coroutine_echo_server.cpp:80-101 | `echo_read` |
| EchoCoroutine.CoroutineServer.AwaitWrite | demo/io_uring_coroutine_echo_server.cpp:103-121 | `echo_write`, with the length narrowed to 32 bits |
| EchoCoroutine.CoroutineServer.AwaitAddBuffer | demo/io_uring_coroutine_echo_server.cpp:123-139 | `echo_add_buffer` resumes the coroutine from inside `await_suspend` |
| EchoCoroutine.CoroutineServer.ResumeFrame | demo/io_uring_coroutine_echo_server.cpp:143-154 | `handle_echo` from any suspension point to the next; misuse is recorded |
| EchoCoroutine.CoroutineServer.DeliverTo | demo/io_uring_coroutine_echo_server.cpp:271-278 | the promise behind `connections.at` is updated and its frame resumed |
| EchoCoroutine.CoroutineServer.HandleCompletion | demo/io_uring_coroutine_echo_server.cpp:241-280 | the dispatch on one completion |
| EchoCoroutine.CoroutineServer.HandlePass | demo/io_uring_coroutine_echo_server.cpp:234-283 | a pass handles the completions in order and stops only with the process |
| CoroutinePass.PassIsProgram | demo/io_uring_coroutine_echo_server.cpp:234-283 | a pass in a run of the system is `HandlePass` on the completions taken, in the order they were posted |
| CoroutineRefinement.DeliverEnd | demo/io_uring_coroutine_echo_server.cpp:145-151 | one event runs two awaits: the buffer goes back, then the socket is shut down, the map entry erased and the frame destroyed |
| CoroutineRefinement.DeliverWritten | demo/io_uring_coroutine_echo_server.cpp:144-153 | one event runs two awaits: the buffer goes back before the next read is queued |
| CoroutineRefinement.StepSimulates | demo/io_uring_coroutine_echo_server.cpp:234-283 | each step of the coroutine server is the same step of the event loop, up to tag fields neither reads |
| CoroutineRefinement.CoroutineRefinesLoop | demo/io_uring_coroutine_echo_server.cpp:143-283 | every run in which no read fails is a run of the event loop: same entries, same shutdowns |
| CoroutineSafety.FrameSafety | demo/io_uring_coroutine_echo_server.cpp:141-154 | over every run, failed reads included, no finished or unknown frame is resumed; the suspended frames are those of the map, every other was destroyed exactly once |
| CoroutineSafety.HandleReplies | demo/io_uring_coroutine_echo_server.cpp:241-280 | after any completion the server has queued exactly the reply that `size_t` makes of the result, and updated exactly the connection concerned |
| CoroutineSafety.CoroutineBufferConservation | demo/io_uring_coroutine_echo_server.cpp:143-156 | over every run, failed reads included, every buffer id is in exactly one place |
| CoroutineSafety.CoroutineOneOutstanding | demo/io_uring_coroutine_echo_server.cpp:143-156 | over every run one accept is outstanding, one operation for every entry of the map, and none for any other descriptor |
| CoroutineSafety.CoroutineNoStarvation | demo/io_uring_coroutine_echo_server.cpp:143-156 | over every run with at most as many connections as buffers no receive is ever refused one |
| CoroutineSafety.CoroutineQueueNeverOverfills | demo/io_uring_coroutine_echo_server.cpp:230-283 | over every run, failed reads included, with at most l connections and room for 2l + 1 entries no queue is overfilled |
| CoroutineExits.HandleStops | demo/io_uring_coroutine_echo_server.cpp:241-280 | the handling of a completion ends the process if and only if it is one with `-ENOBUFS` or a PROVIDE_BUFFERS that failed, and meets a full ring if and only if the reply does not fit |
| CoroutineExits.CoroutineExitsIff | demo/io_uring_coroutine_echo_server.cpp:234-283 | over every run, failed reads included, a step calls `exit` if and only if it handles such a completion |
| CoroutineExits.CoroutineStopsIff | demo/io_uring_coroutine_echo_server.cpp:234-283 | over every run with at most l connections, as many buffers and 2l + 1 entries, a step stops the server if and only if it handles an accept or a send that the kernel had no buffer space for |
| CoroutineExits.CoroutineAcceptsOnListener | demo/io_uring_coroutine_echo_server.cpp:230-283 | over every run each accept queued is for the listening socket |
| CoroutineRefinement.CoroutineEchoIntegrity | demo/io_uring_coroutine_echo_server.cpp:143-156 | in a run without failed reads: what was received is, in order, the pieces that left, the tails that cut sends left out, and the chunk in flight; nothing is missing if and only if no send was cut short; and nothing of an ended connection is in flight |
| CoroutineRefinement.AgreesIffReadSucceeds | demo/io_uring_coroutine_echo_server.cpp:145-146 | the two servers answer alike if and only if the completion is not a failed read; otherwise the coroutine queues a send |
| WebServer.IoUringHandler.constructor | server/io_uring.h:83-87 | the loop is entered with one accept queued |
| WebServer.IoUringHandler.ReadSocket | server/stream.h:23-28 | the receive is queued with the promise's tag |
| WebServer.IoUringHandler.ServeAndWrite | server/server.h:76-80 | the NUL is written, `http_conn` builds the response in the buffer, the buffer id is recovered from the pointer, and the send queued; undefined behaviour of the request handling is recorded as misuse |
| WebServer.IoUringHandler.HandleRequest | server/server.h:73-79 | a fresh `http_conn` on an array makes of the buffer what the specification `respond` says, undefined behaviour included |
| WebServer.FileConfig | server/server.h:71-84 | a configuration whose `respond` is `handle_request` on given files |
| WebServer.IoUringHandler.ReturnAndClose | server/stream.h:51-100 | the end of the write gives the buffer back, then the map entry is erased, the socket closed and the frame gone |
| WebServer.IoUringHandler.ResumeFrame | server/server.h:71-84 | the coroutine from any suspension point to the next |
| WebServer.IoUringHandler.DeliverTo | server/io_uring.h:137-147 | the promise behind `connections.at` is updated and its frame resumed |
| WebServer.IoUringHandler.HandleCompletion | server/io_uring.h:99-148 | the dispatch on one completion |
| WebServer.IoUringHandler.HandlePass | server/io_uring.h:90-151 | a pass handles the completions in order, with the kernel writing to the buffers in between |
| WebPass.PassIsProgram | server/io_uring.h:90-151 | a pass in a run of the system is `HandlePass` on the completions taken, in the order they were posted |
| WebProtocol.BufferIdOfPointer | server/io_uring.h:33-39 | `get_buffer_id` recovers the buffer from every pointer into it |
| WebProtocol.StepInv | server/io_uring.h:83-153 | every step of server and kernel keeps the invariants, under reuse of descriptors |
| WebTheorems.NeverMisused | server/io_uring.h:117-148 | in a run whose reads can be served `connections.at` never fails and no frame is resumed that is not suspended |
| WebTheorems.Lifecycle | server/server.h:71-84 | every connection goes through read, write, return of the very buffer it read into, and close, each once; its frame is destroyed once and out of reach |
| WebTheorems.OpenDescriptors | server/io_uring.h:191-196 | open client descriptors are the keys of `connections` and those accepted and not yet handed over |
| WebTheorems.WebBufferConservation | server/stream.h:23-55 | every buffer id is in exactly one place |
| WebTheorems.OwnRequestOwnResponse | server/server.h:76-80 | a coroutine parses the bytes of its own connection, and its client has exactly the response if and only if nothing was cut short |
| WebTheorems.MisusedIffUnservable | server/server.h:76-79 | whatever `respond` is: the handling of a read is undefined if and only if the read has no room for its NUL or `respond` is undefined on it |
| WebTheorems.WebNoStarvation | server/io_uring.h:103-148 | with at most as many connections as buffers no receive is ever refused one |
| WebTheorems.WebQueueNeverOverfills | server/io_uring.h:90-151 | with at most l connections and room for l + 2 entries `io_uring_get_sqe` never returns NULL |
| WebTheorems.FaultedIffFull | server/io_uring.h:183-205 | the handling of a completion meets the NULL of a full ring if and only if its entries do not fit: one for a read or a write, two for a new connection |
| WebFiles.EmptyReadCrashes | server/server.h:76-79 | a read of 0 bytes leaves no token, and NULL is dereferenced |
| WebFiles.ServableIffAnswerable | server/server.h:76-80 | a read can be served if and only if its bytes are a request `handle_request` is defined for |
| WebFiles.MisusedIffUnanswerable | server/server.h:76-79 | whatever room the ring has: the handling of a completion goes wrong in the memory of the program if and only if it is a read outside 1 to 2047 bytes, or one whose bytes lack a token, name a file that does not fit `final_path`, or ask for a response that does not fit the buffer |
| WebFiles.UndefinedIff | server/io_uring.h:99-205 | the handling of a completion is undefined if and only if it is such a read or its entries do not fit the ring |
| WebFiles.DefinedIff | server/server.h:71-84 | over every run, with no bound on connections: the server has become undefined if and only if it was handed such a read or a completion whose entries did not fit the ring |
| WebFiles.DefinedIffAnswerable | server/server.h:71-84 | over every run with at most l connections and room for l + 2 entries: it has become undefined, by the NULL of a full ring or otherwise, if and only if it was handed such a read |
| WebQueue.OverfillsIff | server/io_uring.h:83-205 | some run of requests it is defined for, with at most l connections, overfills the ring if and only if it has fewer than l + 2 entries |
| WebExits.WebExitsIff | server/io_uring.h:103-116 | over every run, whatever its reads return, a step calls `exit` if and only if it handles a completion with `-ENOBUFS` or a PROVIDE_BUFFERS that failed |
| WebExits.WebStopsIff | server/io_uring.h:90-151 | over every run with at most l connections, as many buffers and l + 2 entries, a step stops the server if and only if it hands it a read it is not defined for, or an accept or a send that the kernel had no buffer space for |
| WebExits.WebRunsOn | server/io_uring.h:90-151 | with answerable requests and without such a shortage it never stops |
| WebExits.WebAcceptsOnListener | server/io_uring.h:211-224 | over every run each accept queued is for the listening socket |
| WebFiles.ClientGetsFile | server/server.h:71-84 | in every run of such requests a client whose write completed without loss was sent the response to its request, with status 200, 404 or 400 as it deserves: for a file that exists what parses into that file, for a missing one the error text, its NUL and the 37 bytes of the buffer behind it |
| Tasks.TagRoundTrip | server/task.h:17-24 | storing event type, buffer and socket in the union and reading them back is the identity, in both directions, negative values included; the fields are the low 16, the next 16 and the high 32 bits |
| Tasks.BidFitsIff | server/io_uring.h:139 | a selected buffer survives the `short` if and only if it is below 32768, and otherwise comes back congruent modulo 65536 |
| Tasks.ConnRoundTrip | demo/io_uring_echo_server.c:31-35 | the same for `conn_info` |
| Tasks.Task.Move | server/task.h:53 | the new task takes the frame over; no frame has two owners and none is lost |
| Tasks.Task.Assign | server/task.h:54-63 | the frame owned before is destroyed, exactly that one; self-assignment changes nothing |
| Ring.MaskIsRemainder | demo/uring_cat.c:228 | masking a counter is the remainder by the ring size |
| Ring.WrapKeepsSlot | demo/uring_cat.c:302-305 | the wrap of a 32-bit counter does not disturb the slots |
| Ring.SlotsDiffer | demo/uring_cat.c:305-315 | as many consecutive counters as the ring has entries use different slots, across the wrap |
| Ring.CompletionRing.Publish | demo/uring_cat.c:224-228 | the kernel's side: the entry is queued behind the others |
| Ring.CompletionRing.EntryAt | demo/uring_cat.c:228 | a masked counter finds the published entry it stands for |
| Ring.CompletionRing.ReadFromCq | demo/uring_cat.c:210-244 | under any interleaving with the kernel the published entries are consumed in order, each once, and the ring is left empty |
| Ring.SubmissionRing.Push | demo/uring_cat.c:302-321 | in a ring that is not full the entry is queued behind the others |
| Ring.SubmissionRing.Take | demo/uring_cat.c:328-329 | the kernel takes the oldest entry, through the index array |
| Ring.FullRingClobbers | demo/uring_cat.c:302-305 | in a full ring the unchecked write would hit the oldest entry |
| Cat.TableFitsIff | demo/uring_cat.c:267-270 | the table has as many entries as the file has blocks if and only if the file is smaller than 2 GiB |
| Cat.BlocksAddUp | demo/uring_cat.c:283-299 | the block lengths add up to the file size |
| Cat.FileInfo.constructor | demo/uring_cat.c:263-299 | the split loop fills exactly the table it allocated, with blocks of 1 to 1024 bytes |
| Cat.FileInfo.FillFrom | demo/uring_cat.c:309-312 | a vectored read fills the blocks in order |
| Cat.FileInfo.Output | demo/uring_cat.c:233-237 | the printing loop prints the blocks in order |
| Cat.GatherAfterScatter | demo/uring_cat.c:233-237 | printing after a read that fills the vector outputs exactly the data |
| Cat.CatProgram.Enter | demo/uring_cat.c:328-333 | the submit call consumes the entry, and its completion is the only one |
| Cat.CatProgram.SubmitToSq | demo/uring_cat.c:251-336 | a file that can be read waits in the completion ring; otherwise nothing changed |
| Cat.CatProgram.ReadFromCq | demo/uring_cat.c:210-244 | it is printed and both rings are empty again |
| Cat.CatProgram.Run | demo/uring_cat.c:358-364 | even rings of one entry are never written over, and the readable files up to the first unreadable one are printed once each, in order |
| Cat.PrintedUpTo | demo/uring_cat.c:358-364 | the first file that cannot be read ends the output: what is printed is the contents of those before it, and nothing behind it |
| HeapServer.HttpServer.constructor | demo/uring_server.c:386-391 | one accept pending |
| HeapServer.HttpServer.AddAcceptRequest | demo/uring_server.c:127-138 | one block, given to the kernel |
| HeapServer.HttpServer.AddReadRequest | demo/uring_server.c:140-153 | two blocks, given to the kernel |
| HeapServer.HttpServer.AddWriteRequest | demo/uring_server.c:155-173 | a request block and its buffers, given to the kernel |
| HeapServer.HttpServer.HandleCompletion | demo/uring_server.c:397-428 | one turn of the loop, all branches; misuse of memory and sockets is recorded |
| HeapServer.HttpServer.HandleEvent | demo/uring_server.c:393-429 | the same with the outcome computed from the text that was read, undefined behaviour included; it is the turn the runs are made of |
| HeapServer.TurnKeepsOwned | demo/uring_server.c:393-429 | every turn keeps: each allocated block and each open socket has exactly one owner |
| HeapServer.ExactAccounting | demo/uring_server.c:386-430 | over every run on texts no block is used or freed twice and no socket closed twice; allocated blocks and open sockets are those of the pending requests, and two blocks and one socket for every read of the run that returned nothing; the program becomes undefined if and only if a read brings a text that `FileService.ServeIff` names, and exits if and only if a request failed or a read brings no CRLF in its first 1024 bytes |
| HeapServer.EveryTurn | demo/uring_server.c:393-429 | over every run a turn takes the completed request out and asks for exactly the work that follows: an accepted descriptor is read from, a text answered on the socket it came from in a request block and one block a buffer, a written socket closed, an empty read forgotten with its socket open |
| HeapServer.EveryTextIsAnswered | demo/uring_server.c:301-429 | over every run a text is answered on its own socket: status 200 in 1 + 6 blocks if and only if it is a GET of a file that is there, otherwise 404 or 400 in 1 + 1 blocks |
| HeapServer.GetIsAnswered | demo/uring_server.c:301-429 | over every run who asks for a file with a well-formed GET request is sent on the same socket what parses into that file |
| CText.DecimalRoundTrip | demo/uring_server.c:284 | a printed content length parses to the number |
| CText.LowerIsGet | server/utils.h:14-17 | a method lower-cases to get if and only if it is those three letters in any mixture of cases |
| CText.Lower | demo/uring_server.c:62-65 | the code points 65 to 90 move up by 32, every other character stays |
| CText.ExtOf | demo/uring_server.c:222-227 | the extension is the text behind the last dot |
| CText.ExtIff | demo/uring_server.c:222-227 | exactly which text is the extension of a name: what follows its last dot, unless that is the first character or there is none |
| CText.MimeType | demo/uring_server.c:259-277 | exactly the nine listed extensions have a content type |
| CText.MimeIsType | demo/uring_server.c:259-277 | which content type each of them has |
| HttpResponse.PickContentType | demo/uring_server.c:259-281 | the chain of comparisons leaves the line of the extension, or the C string the buffer held, if a NUL ends it |
| HttpResponse.SendHeaders | demo/uring_server.c:236-299 | the first five buffers, without their NULs, if and only if the path fits `small_case_path` and the type line has an end |
| HttpResponse.BuildResponse | demo/uring_server.c:328-332 | all six buffers, under the same condition |
| HttpResponse.ResponseRoundTrip | demo/uring_server.c:199-332 | a reference parser recovers status 200, the content type that belongs to the lower-cased extension, the length and the file from the joined buffers |
| HttpResponse.JunkIsSent | demo/uring_server.c:259-281 | for an unlisted extension the client is sent the header line that the uninitialised buffer happens to hold, whatever it is |
| HttpRequest.GetLine | demo/uring_server.c:364-373 | it succeeds if and only if a CRLF starts inside `dest`, and then holds the text before the first one |
| HttpRequest.NextToken | demo/uring_server.c:352-354 | a token is not empty and holds no space; there is none if and only if all characters are spaces |
| HttpRequest.TokenAtIsFirst | demo/uring_server.c:352-354 | text behind blanks and in front of a blank or the end is the token, and what follows that blank is the rest |
| HttpRequest.ReadRequest | demo/uring_server.c:349-380 | the request that is answered, or the exit for a line that is too long |
| HttpRequest.RequestRoundTrip | demo/uring_server.c:349-373 | method and path survive formatting a request line and reading it back, whatever follows in the buffer |
| HttpRequest.CrashIff | demo/uring_server.c:349-362 | a missing token is dereferenced if and only if the line is blank or holds only the word get |
| HttpRequest.GetIff | demo/uring_server.c:349-362 | a line asks for a path if and only if it is blanks, the word get in any case, blanks, that path, and then nothing or a blank; together with `CrashIff` this settles every line |
| FileService.HandleGetMethod | demo/uring_server.c:301-341 | the buffers queued for a path, or that it runs out of `final_path` or past `send_buffer` |
| FileService.HandleClientRequest | demo/uring_server.c:375-384 | the buffers queued for what was read, the exit, or undefined behaviour |
| FileService.ServeIff | demo/uring_server.c:301-384 | the exit is taken if and only if no CRLF starts in the first 1024 bytes; behaviour is undefined if and only if a token is missing, the path does not fit, or an existing file has an unlisted extension and no NUL is in the uninitialised `send_buffer` |
| FileService.GetReturnsFile | demo/uring_server.c:301-384 | from a formatted GET request to the parsed response: the client gets the file below `public` that it asked for, or the index of the directory, if and only if the line and the file name fit their arrays |
| FileService.StatusOfText | demo/uring_server.c:301-384 | whatever text was read: the status of the answer is 200, in six buffers, if and only if it is a GET of a file that is there, 404 for any other GET, 400 for any other method |
| FileService.StatusOfRequest | demo/uring_server.c:301-384 | for a formatted request the error answers parse into status, reason, header and page: 404 for a missing file, 400 for another method |
| CBuffer.StrToLower | server/utils.h:14-17 | exactly the C string is lower-cased, in place: the code points 65 to 90 in it move up by 32 |
| CBuffer.Strcpy | server/http_conn.h:159 | byte by byte: it stays in the array if and only if text and NUL fit, and then changes exactly those bytes |
| CBuffer.GetFirstLine | server/http_conn.h:184-193 | the C string is cut at its first CRLF, if and only if that starts within the limit; nothing else changes |
| CBuffer.Strtok | server/http_conn.h:200-202 | the next token is a C string in place, the rest is where the save pointer says, and nothing else changes |
| HttpConn.HttpConnection.Append | server/http_conn.h:159-160 | it fails exactly where a byte would leave the buffer; otherwise the cursor moves by `strlen` exactly behind what was copied, onto its NUL |
| HttpConn.HttpConnection.AddContentType | server/http_conn.h:130-151 | an extension that is not listed adds nothing; a line fails exactly where it leaves the buffer |
| HttpConn.HttpConnection.AddContentLength | server/http_conn.h:153-156 | the line with the decimal length, if and only if it fits |
| HttpConn.HttpConnection.AddHeaders | server/http_conn.h:158-165 | the headers stand in front of what the buffer held, with a NUL at the cursor behind them, if and only if all four copies fit |
| HttpConn.HttpConnection.AddContent | server/http_conn.h:105-117 | the file follows the headers, if and only if it and its NUL fit |
| HttpConn.HttpConnection.ParseRequest | server/http_conn.h:195-227 | on any NUL-terminated buffer: it fails exactly where a NULL token is used or `final_path` overrun; otherwise the code, the path and the size, although the request is overwritten while it is parsed, and the whole buffer it leaves |
| HttpConn.HttpConnection.Resolve | server/http_conn.h:211-226 | the copy fails exactly for a name that leaves `final_path`; otherwise what `stat` says about the file |
| HttpConn.HttpConnection.HandleRequest | server/http_conn.h:167-182 | on any NUL-terminated buffer of 2048 bytes: no NULL is used and no byte leaves an array if and only if `Respond` is defined, and then the whole buffer and the size reported are those of `Respond` |
| HttpConn.ParsedKeepsRest | server/http_conn.h:184-209 | parsing leaves everything behind the first line as it was |
| HttpConn.UndefinedIff | server/http_conn.h:105-227 | which buffers those are, in the words of the request: `Respond` is undefined if and only if a token is missing, the file name does not fit `final_path`, or the response does not fit the buffer |
| HttpConn.SizeIsLengthIff | server/http_conn.h:169-180 | the size that `HandleRequest` reports is the length of the text it wrote if and only if the request is not for a missing file |
| HttpConn.StatusSent | server/http_conn.h:167-227 | whatever is in the buffer: the status sent is 200 if and only if it is a GET of a file that is there; any other GET is sent what parses into the 404 page, its NUL and 37 bytes of the buffer, any other method the 400 page |
| HttpConn.RequestOfLine | server/http_conn.h:195-209 | method and path survive formatting a request line into the buffer, with or without a CRLF behind it |
| HttpConn.InPlaceRoundTrip | server/http_conn.h:105-227 | for a buffer of 2048 bytes with a formatted GET request: it is answered if and only if file name and response fit, and then the first `response_size` bytes of the buffer parse into the file the path names, its length, and the content type of its extension as it stands, if that is listed |

## Left out

- Tasks.Task.Assign: destruction of a frame is the returned handle; what the destructor of a frame does is not modelled.
- HttpConn.HttpConnection.HandleRequest: what happens after undefined behaviour is not modelled; `Respond` is `None` there, and the web server records misuse and stops.
- HttpResponse.SendHeaders: the uninitialised stack buffer is taken to hold some characters, `junk`; reading them is undefined only when no NUL ends them.
- Cat.CatProgram.Enter: failure of the system call and short or failed reads are not modelled; the kernel reads the whole file.
- Socket setup, ring setup, `mmap`, feature probes, signal handling, logging and messages on standard error.
- liburing's own code, memory barriers and weak memory; an entry is posted and read in one step.
- Overflow of the completion queue, and failure of `io_uring_submit_and_wait`.
- Failure of `malloc`, `posix_memalign` and `new`.
- `demo/io_uring_echo_server.cpp`, which is the text of the C file, and `demo/liburing_cat.c`, which repeats the block split.
- `read_file_awaitable`, `write_file_awaitable`, `add_open_request` and the OPEN event, which are unused.
- Descriptors and buffer ids are natural numbers in the protocols; `Tasks` shows when they fit their fields.
- Block devices in `get_file_size`; a file is regular or has no size.
- `tolower` on bytes above 127: a character is an unsigned byte, and only `A` to `Z` change.
- Code generation for coroutines: a frame is a suspension point with its locals.
- `test/client.cpp`, documents and benchmark scripts.
