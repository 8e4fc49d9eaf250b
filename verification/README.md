# A model of the MessagePack-RPC client and server

The program is an asynchronous MessagePack-RPC client and server. This project
models the whole path of a call (user thread, client strand, call table and
pending buffers, write queue, byte stream, unpack loop, a job on any worker,
dispatcher, write strand, write queue, byte stream, read loop, promise) and
proves what the program promises about it. `dafny verify dfyconfig.toml` checks
everything.

## How it is built

Every object whose methods change its fields is a class (`AsyncWriter`,
`ClientImpl`, `ServerSession`, `ServerImpl`, `Response`, `ThisHandler`,
`Reconnectable`, ...). Each method is proved to do what a function on values
says; the state machines below are made of the same functions.

| module | what it holds |
|---|---|
| `MsgPack`, `Framing` | nil, int, str and array of MessagePack: encoder, incremental decoder, unpacker |
| `AsyncWriting`, `WriterRace` | the write queue; its handlers cut at each access to shared state, refining the events of the first |
| `Messages` | call ids through four integer types, request and response frames |
| `ThisState`, `Dispatching`, `ServerSessions` | thread-local handler state, dispatch, the job body, the server's read loop |
| `Clients` | call table, pending buffers, strand handlers, response delivery |
| `Pipes` | one direction of the connection as a queue of frames |
| `Rpc` | the life of a call, with the transport reduced to two bags of frames |
| `Systems` | client, network and server composed: 21 kinds of step, interleaved freely |
| `Simulation`, `Guarantees` | each step of the system is an action of `Rpc`; what follows in every reachable state |
| `Order`, `ReturnOrder`, `Progress` | order on the way out, order on the way back, termination and completion |
| `Notifications` | notifications end to end: conserved, and handled |
| `Lifecycle` | connecting and closing in the composed system, and that its environment is not held back |
| `Reachable` | the guarantees stated over whole runs from a new client and server |
| `Registries`, `Connecting` | the server's session list; connecting, retrying, the connection state |

Handlers are uninterpreted functions from the argument list, the thread-local
state and a `World` (whatever else they read) to an ending and a new
thread-local state. Handlers of one strand run one at a time and in order; the
client's run on one thread, the server's jobs on any number of workers.

A lemma that requires `Guarantees.Good` speaks of every reachable state:
`InitialGood` and `AlwaysGood` say so, and `Reachable` restates the main ones.

## Where the code and its comments differ

- `include/detail/response.h:28-29` says that a result is discarded when there is
  also an error. `src/detail/response.cpp:37-38` packs both, and the client takes
  the error (`Messages.ResultKeptBesideError`).
- `respond(x)` leaves the handler by an exception that `dispatch_call` catches and
  then runs on into the "could not find function" error, so the caller gets that
  error and not x. `ServerSessions.SpecialResultReachesCaller` says exactly when a
  special result does reach the caller.
- `include/detail/async_writer.h:25` (in Chinese) promises that `close` finishes
  the earlier writes. It finishes at most the one in flight
  (`AsyncWriting.CloseFinishesOnlyTheFlight`).

## Model

| member | source | states |
|---|---|---|
| MsgPack.RoundTrip | include/client.inl:27-27 | the unpacker reads back every packed object, whatever bytes follow it |
| MsgPack.HeadRoundTrip | include/client.inl:27-27 | every header (all ten int forms, four str forms, three array forms) decodes to what was encoded |
| MsgPack.BigEndianRoundTrip | include/client.inl:27-27 | big-endian numbers of any width read back |
| MsgPack.BigEndianLeads | include/client.inl:27-27 | numbers are written most significant byte first |
| MsgPack.LeadByte | include/client.inl:27-27 | the lead byte and size of every object by its value, as the MessagePack specification lays them out |
| MsgPack.ShortestHead | include/client.inl:27-27 | no header says the same in fewer bytes |
| MsgPack.SignedReads | src/client.cpp:166-166 | any width reads as two's complement, in shorter form or not |
| MsgPack.UnsupportedLeads | src/client.cpp:166-166 | exactly which lead bytes are refused |
| MsgPack.Extends | src/detail/server_session.cpp:61-62 | bytes that arrive later never change an object already found, nor make malformed bytes good |
| MsgPack.ProperPrefixWaits | src/detail/server_session.cpp:61-62 | a proper prefix of an object is never taken for an object: next() waits |
| Framing.SplitRead | src/client.cpp:162-184 | two reads yield and hold back what one read of both would |
| Framing.ChunkIndependence | src/client.cpp:162-193 | for any split into reads, the objects yielded and the bytes held back depend on the bytes alone |
| Framing.EncodedStream | src/detail/server_session.cpp:58-62 | a stream cut in the middle of an object yields exactly the whole objects before it and holds back exactly the started one |
| Framing.Unpacker.BufferConsumed | src/detail/server_session.cpp:58-58 | a read's bytes join the held ones at the end |
| Framing.Unpacker.TakeNext | src/detail/server_session.cpp:61-63 | next() takes the first object off the buffer, or leaves the buffer alone |
| AsyncWriting.SoundForever | src/detail/async_writer.cpp:52-100 | at most one write in flight, of the queue's front; an idle non-empty queue means exit; kept by every event |
| AsyncWriting.FailureDecision | src/detail/async_writer.cpp:65-84 | a failed write is forgiven if and only if it is broken_pipe on an object of size 3: front gone, the next one started unless exit; any other failure leaves the queue and stops the writer |
| AsyncWriting.CompletionDecision | src/detail/async_writer.cpp:56-64 | a completed write: front gone, the next one started unless exit |
| AsyncWriting.SentBytes | src/detail/async_writer.cpp:52-86 | over any run of a new writer the bytes sent are a prefix of the accepted buffers, in order, without exactly the 3-element frames dropped on broken_pipe, plus the begun part of the next |
| AsyncWriting.LogStep | src/detail/async_writer.cpp:52-100 | each event keeps the log: accepted is settled plus queued, sent is what was settled and not dropped plus the begun part |
| AsyncWriting.FailedForever | src/detail/async_writer.cpp:78-84 | after any other failed write, the sent bytes and the front item never change again |
| AsyncWriting.AfterExit | src/detail/async_writer.cpp:43-46 | once exit is set nothing is accepted and at most the write in flight settles |
| AsyncWriting.NothingBehindLeaves | src/detail/async_writer.cpp:43-46 | once exit is set no byte leaves but those still left of the buffer in flight |
| AsyncWriting.CloseFinishesOnlyTheFlight | src/detail/async_writer.cpp:18-21 | close lets earlier writes finish if and only if they are at most the one in flight |
| AsyncWriting.CloseLeavesTheSecond | src/detail/async_writer.cpp:61-63 | a new writer that accepts two buffers and is closed sends no byte of the second, whatever follows |
| AsyncWriting.AsyncWriter.constructor | src/detail/async_writer.cpp:15-16 | a new writer: empty queue, nothing in flight, exit not set |
| AsyncWriting.AsyncWriter.Close | src/detail/async_writer.cpp:18-37 | sets the exit flag and nothing else at once |
| AsyncWriting.AsyncWriter.IsClosed | src/detail/async_writer.cpp:39-41 | the flag as it is when loaded, which another thread may have set before |
| AsyncWriting.AsyncWriter.DoWrite | src/detail/async_writer.cpp:43-55 | starts the front unless exit is seen set |
| AsyncWriting.AsyncWriter.Write | src/detail/async_writer.cpp:89-100 | drops the buffer when closed, else queues it, and starts only an idle queue; for a close before or between its two checks |
| AsyncWriting.AsyncWriter.OnWritten | src/detail/async_writer.cpp:53-85 | the three branches: popped and restarted, notification forgiven on broken_pipe, or stuck |
| AsyncWriting.AsyncWriter.Advance | src/detail/async_writer.cpp:58-63 | pop_front, then the next write unless closed |
| WriterRace.SafeStep | src/detail/async_writer.cpp:18-100 | every micro-step, with bytes leaving and exit set by another thread between any two, keeps the writer safe |
| WriterRace.HandlerIsAtomic | src/detail/async_writer.cpp:43-100 | however the flag is set meanwhile, a handler does one atomic event of AsyncWriting: with the flag set before, between its checks, or after |
| WriterRace.WriterIsSafe | src/detail/async_writer.cpp:48-100 | in every reachable micro-state: one write in flight at most and it is the front; front and pop_front never meet an empty queue; an idle non-empty queue between handlers means exit |
| WriterRace.NoStartAfterExit | src/detail/async_writer.cpp:43-46 | after exit at most one write starts: one whose check had already passed |
| WriterRace.LoneWriteCompletes | src/detail/async_writer.cpp:56-64 | one buffer written to a new writer: pushed, started, sent and popped, and the writer rests empty and open |
| WriterRace.EveryInterleavingIsEvents | src/detail/async_writer.cpp:18-100 | every interleaving of micro-steps is a run of atomic events with the same accepted buffers, the same bytes sent and, between handlers, the same writer |
| WriterRace.InterleavedSentBytes | src/detail/async_writer.cpp:52-86 | at every cut of every interleaving: accepted is what was popped plus what is queued, only 3-element frames were popped as dropped, by a broken_pipe completion, and the bytes sent are the others and the begun part of the front |
| WriterRace.InterleavedFailedForever | src/detail/async_writer.cpp:78-84 | under any interleaving, wherever a handler stands, after an unforgiven failed write nothing settles and the sent bytes and the front never change |
| WriterRace.InterleavedAfterExit | src/detail/async_writer.cpp:43-55 | once exit is set, wherever a handler stands: at most the one buffer whose check had passed is still accepted, and no byte leaves but the rest of the write in flight or, where a start had passed its check, of that one buffer |
| Messages.NthIdIs | src/client.cpp:330-332 | the n-th id is n, wrapped to 32 signed bits |
| Messages.IdSurvives | include/dispatcher.h:25-25 | int to int32 to uint32 to int is the identity on all 2^32 ids |
| Messages.IdsCollide | src/client.cpp:330-332 | two calls share an id if and only if they are a multiple of 2^32 allocations apart |
| Messages.IdsDistinctInWindow | src/client.cpp:330-332 | ids are pairwise distinct over any 2^32 allocations |
| Messages.RequestRoundTrip | include/client.inl:24-27 | a packed call or notification reads back with the same name and arguments, in its own branch of dispatch |
| Messages.RequestBytes | include/client.inl:24-27 | the bytes of a call and of a notification: array header, message type 0 or 2, then id, name and arguments |
| Messages.ConvertsExactly | src/dispatcher.cpp:59-61 | a message converts to a call or a notification if and only if it is an array of a small integer, an id of 32 bits for a call, a name, and any arguments |
| Messages.ResponseBytes | src/detail/response.cpp:37-40 | the bytes of a response: array header, type 1, id, error or nil, result or nil |
| Messages.RespondsExactly | src/detail/response.cpp:14-28 | a frame converts to a response if and only if it is an array of two 32-bit numbers and two objects |
| Messages.ResponseRoundTrip | src/detail/response.cpp:14-42 | a packed response reads back up to one normalisation: nil error absent, absent result nil; normalising again, or packing the result, changes nothing |
| Messages.RepackingIsIdentity | src/detail/response.cpp:14-42 | pack after parse gives the bytes parsed if and only if the first element was 1, and always the same id, error and result |
| Messages.ResultKeptBesideError | src/detail/response.cpp:37-40 | beside an error the result is discarded if and only if it is nil |
| Messages.ResultKeptExample | include/detail/response.h:28-29 | a response with an error whose result is not discarded |
| Messages.Response.Empty | src/detail/response.cpp:71-75 | the answer that is not sent |
| Messages.Response.MakeResult | include/detail/response.h:66-74 | an answer with that id and result, no error |
| Messages.Response.MakeError | include/detail/response.h:77-86 | an answer with that id and error, no result |
| Messages.Response.FromObject | src/detail/response.cpp:14-28 | the fields of an unpacked frame; packing them gives back its last three elements |
| Messages.Response.CaptureResult | src/detail/response.cpp:44-50 | replaces the result only |
| Messages.Response.CaptureError | src/detail/response.cpp:52-57 | replaces the error only |
| Messages.Response.Data | src/detail/response.cpp:30-42 | the packed frame, which unpacks to itself with nothing left over |
| ThisState.ThisHandler.Clear | src/this_handler.cpp:18-22 | no error, no special result, response enabled |
| ThisState.ThisHandler.DisableResponse | src/this_handler.cpp:10-12 | the response is disabled, nothing else changes |
| ThisState.ThisHandler.EnableResponse | src/this_handler.cpp:14-16 | the response is enabled, nothing else changes |
| ThisState.ThisHandler.RespondError | include/this_handler.inl:3-8 | stores the error, then leaves by the marker |
| ThisState.ThisHandler.Respond | include/this_handler.inl:11-14 | stores the special result, then leaves by the marker |
| ThisState.ThisSession.PostExit | src/this_session.cpp:9-11 | asks for the session's exit; the id stays |
| ThisState.ThisSession.Clear | src/this_session.cpp:17-19 | withdraws the exit request; the id stays |
| ThisState.ThisSession.SetId | src/this_session.cpp:21-23 | the id of the running session; the exit request stays |
| ThisState.ThisServer.Stop | src/this_server.cpp:9-11 | sets the stop request |
| ThisState.ThisServer.CancelStop | src/this_server.cpp:13-15 | withdraws the stop request |
| ThisState.Worker.Prepare | src/detail/server_session.cpp:69-72 | whatever the last job left, a job starts from one fixed thread-local state |
| Dispatching.Dispatcher.Bind | include/dispatcher.inl:3-9 | binds a new name; a bound name is refused and stays as it was |
| Dispatching.Dispatcher.Unbind | src/dispatcher.cpp:31-33 | exactly that name is gone |
| Dispatching.TagsDiffer | src/dispatcher.cpp:80-116 | the four error messages can be told apart |
| ServerSessions.LeftoversDoNotMatter | src/detail/server_session.cpp:68-118 | a job's posts do not depend on what the thread's last job left behind |
| ServerSessions.WorkersAreIndependent | src/detail/server_session.cpp:68-118 | for any jobs on any workers with any leftovers, each job's frame, exit and stop requests are a function of its message and its handler's outcome |
| ServerSessions.CallDecision | src/detail/server_session.cpp:74-118 | a call sends no frame, breaks the worker, or sends one frame, first, that the client reads as the decided reply under the call's id |
| ServerSessions.DispatchDecision | src/dispatcher.cpp:59-118 | the same decision by cause: unknown name, arity, conversion, exception, marker, error set, result set, return, disabled response |
| ServerSessions.OnlyCallsAreAnswered | src/dispatcher.cpp:120-150 | a notification never yields a frame, even when its handler sets an error or a result |
| ServerSessions.NotificationDecision | src/dispatcher.cpp:120-150 | what a notification does, exactly: its handler's state is left on the worker and its close requests are posted; an exception that is no marker breaks the worker unless suppressed |
| ServerSessions.CallPosts | src/detail/server_session.cpp:74-118 | a call's job leaves its handler's state and posts, after the answer, exactly the close requests of that state |
| ServerSessions.ForeignMessage | src/dispatcher.cpp:48-57 | a message of another size is ignored; one of size 3 or 4 that does not convert breaks the worker, suppressed or not |
| ServerSessions.ForeignArguments | include/dispatcher.inl:17-23 | arguments that are no array: the size field is compared, then a function of no arguments runs and any other fails to convert |
| ServerSessions.RequestsAfterAnswer | src/detail/server_session.cpp:81-118 | exit and stop requests follow the answer, the exit before the stop, and count if and only if the response was not disabled |
| ServerSessions.RespondLosesToError | src/dispatcher.cpp:98-116 | after respond(x) the frame carries x and the not-found error, and the caller gets the error |
| ServerSessions.SpecialResultReachesCaller | src/detail/server_session.cpp:92-95 | a special result reaches the caller if and only if the handler returns, with its response enabled and no error set |
| ServerSessions.RespondExample | include/this_handler.inl:11-14 | a function that calls respond(1): its caller gets an error |
| ServerSessions.ServerSession.constructor | src/detail/server_session.cpp:21-27 | an open session with an empty unpacker and its own writer |
| ServerSessions.ServerSession.Close | src/detail/server_session.cpp:33-42 | sets exit and posts one removal |
| ServerSessions.ServerSession.Unpack | src/detail/server_session.cpp:61-120 | each whole frame becomes a job, in order; a close during the loop leaves a prefix of them, and drops exactly the one next() had taken |
| ServerSessions.ServerSession.OnRead | src/detail/server_session.cpp:50-143 | on an open session all whole frames become jobs and the rest is held; eof and reset close it and post one removal; a read seen on a closed one is ignored; the next read is issued exactly when still open |
| ServerSessions.ServerSession.RunJob | src/detail/server_session.cpp:68-119 | on any worker: the posts the job decides, or an escaping exception and no posts |
| ServerSessions.ServerSession.PostAnswer | src/detail/server_session.cpp:81-118 | the precedence of disabled response, error, special result, and the order of answer, close and close-all |
| Clients.ClientImpl.constructor | src/client.cpp:76-83 | no calls, nothing pending, not connected |
| Clients.ClientImpl.Allocate | include/client.inl:22-27 | the next id, a new promise, and the packed request |
| Clients.ClientImpl.PostCall | src/client.cpp:271-273 | the call's handler goes to the end of the strand |
| Clients.ClientImpl.Notify | src/client.cpp:262-268 | a notification's handler goes to the end of the strand, connected or not |
| Clients.ClientImpl.WritePending | src/client.cpp:276-278 | every pending buffer is written once more, in order, and left empty, not removed |
| Clients.ClientImpl.RunStrand | src/client.cpp:273-284 | register, then write the pending ones and the call, or make it pending; or write a notification; or flush; or erase |
| Clients.ClientImpl.OnConnected | src/client.cpp:91-98 | connected, and a flush posted |
| Clients.BrokenPipe | src/detail/async_writer.cpp:65-81 | broken_pipe gives up an unsent notification and goes on with the next buffer; on a call it stops the writer |
| Clients.UnknownResponse | src/client.cpp:169-183 | a response under an unknown id sets no promise, and the entry it makes is gone when its erasure has run |
| Clients.PromisesSetOnce | src/client.cpp:169-180 | whatever frames a peer sends, no promise is set twice, and only those of registered calls are set |
| Clients.DeliverableExactly | src/client.cpp:167-180 | exactly which frames break the io thread |
| Clients.ClientImpl.OnResponse | src/client.cpp:167-183 | sets the promise its id leads to (error first), posts the erasure, and makes up an entry for an unknown id; or throws and sets nothing |
| Clients.ClientImpl.OnRead | src/client.cpp:157-193 | every whole frame of the chunk is delivered in order, the rest is held, the next read issued |
| Pipes.PushItem | src/detail/async_writer.cpp:89-100 | a buffer accepted by an open writer adds its frame at the end of those in transit; a closed writer changes nothing |
| Pipes.Send | src/detail/async_writer.cpp:52-53 | bytes leaving one by one reorder and lose no frame |
| Pipes.Complete | src/detail/async_writer.cpp:56-64 | a completed write takes away only what had left |
| Pipes.Failing | src/detail/async_writer.cpp:65-84 | a failed write keeps every frame in transit except a forgiven notification |
| Pipes.Take | src/detail/server_session.cpp:61-63 | what the reader unpacks is the oldest frame in transit |
| Pipes.NothingStuck | src/detail/server_session.cpp:61-62 | with nothing on the network and no buffer half sent, a reader that finds no frame holds no bytes |
| Rpc.RegisterKeeps | src/client.cpp:274-279 | registering a call before its bytes go keeps the invariant of table, frames, runs and promises |
| Rpc.IdsInTurn | src/client.cpp:330-332 | the first call has id 1 and each next call the next id |
| Rpc.HandleKeeps | src/detail/server_session.cpp:68-102 | running a job keeps it: its request goes, one reply or a loss comes |
| Rpc.ResolveKeeps | src/client.cpp:166-183 | delivering a reply keeps it: the promise set is that call's own, for the first time |
| Rpc.ForgetKeeps | src/client.cpp:181-183 | erasing keeps it: the entry erased is a resolved call's |
| Rpc.ActKeeps | src/client.cpp:157-285 | every action of a call's life keeps the invariant |
| Simulation.SimCall | src/client.cpp:273-284 | the call handler is one registration, connected or not, whatever stale buffers it rewrites |
| Simulation.SimFlush | src/client.cpp:94-98 | a flush, however often, moves frames to the writer and adds none |
| Simulation.SimRunJob | src/detail/server_session.cpp:68-119 | a job on any worker in any state is one handling of its request |
| Simulation.SimSessionSend | src/detail/server_session.cpp:99-101 | an answer's write moves it to the wire, or loses it if the session is closed |
| Simulation.SimClientUnpacks | src/client.cpp:166-183 | unpacking a response is one resolution |
| Simulation.AlwaysDeliverable | src/client.cpp:167-183 | every response unpacked is for an entry of the table whose promise is unset |
| Simulation.RepliesAreNotForgiven | src/detail/async_writer.cpp:65-77 | broken_pipe never drops a reply |
| Guarantees.StepSimulates | src/client.cpp:157-285 | every step of client, network and server is one action of the call's life, and keeps the invariant |
| Guarantees.AlwaysGood | src/client.cpp:157-285 | the invariant holds after any interleaving |
| Guarantees.RefinesAtomicMap | src/client.cpp:166-183 | every step is a move of an atomic map: a call made, one unanswered call answered by its own function, or nothing; faults, closes and callers that give up included |
| Guarantees.FuturesHoldOwnOutcomes | src/client.cpp:166-183 | in every reachable state a ready future holds what its own call's function did with its own arguments in the one run recorded |
| Guarantees.RunsGrow | include/client.inl:3-13 | the run recorded for a call, a ready future and a loss never change, however the run goes on, also after the caller timed out |
| Guarantees.HandlersRunOnce | src/detail/server_session.cpp:68-74 | a call in the job queue has not run, and carries its own name and arguments |
| Guarantees.ExactlyOnePlace | src/client.cpp:271-285 | conservation, in any state with the invariant: an unresolved call is in exactly one place, once |
| Guarantees.ResolvedIsNowhereElse | src/client.cpp:181-183 | a resolved call is in none of them, and no frame in flight leads to it |
| Guarantees.InTableUntilErased | src/client.cpp:181-183 | a call past its strand step is in ongoing_calls while unresolved; a resolved one is there if and only if its erasure is in the strand, and every erasure there has such an entry to erase |
| Guarantees.TableChangesOnTheStrand | src/client.cpp:274-274 | an entry appears only when its call's handler runs, under an id not there, and goes only when an erasure of its id runs |
| Guarantees.LossNeedsACause | src/detail/server_session.cpp:81-83 | a call is lost only by a closed session or by its own handler disabling the response |
| Guarantees.ResponsesFindTheirCalls | src/client.cpp:169-176 | ongoing_calls[id] in the read loop never inserts, and no promise is set twice |
| Guarantees.StreamsAreWellFormed | src/detail/server_session.cpp:62-62 | neither reader meets malformed bytes, and no worker a message it cannot convert |
| Order.StrandOrderAlways | src/client.cpp:88-99 | calls unpacked, in transit, pending and in the strand, in this order, are the calls posted, each once, however flushes repeat |
| Order.CallsKeepStrandOrder | src/client.cpp:273-284 | from the start: the server unpacks a prefix of what the writer was handed, a prefix of what was posted |
| ReturnOrder.FifoAlways | src/detail/server_session.cpp:68-119 | one worker and FIFO jobs keep both lines, of calls and of answers, in order |
| ReturnOrder.OneWorkerIsFifo | include/server.h:34-34 | with one worker calls run, and futures resolve, in strand order; with nothing lost, each is a prefix of the one before |
| Progress.WorkLowers | src/client.cpp:273-284 | every working step lowers a well-founded measure that charges each queued handler for the stale buffers it rewrites |
| Progress.WorkEnds | src/client.cpp:273-284 | so no infinite run consists of working steps alone |
| Progress.WorkCanFinish | src/client.cpp:273-284 | and from any connected state some working steps lead to one with no work left |
| Progress.FlushAlwaysComes | src/client.cpp:94-98 | once connected, a pending buffer with a frame in it always has a flush coming |
| Progress.QuiescentIsDone | error.md:23-23 | no work left, without faults: a call is unresolved if and only if it is lost or stuck behind its own handler that always breaks its worker; the table holds exactly those; no frame is left in pending_calls |
| Progress.EveryCallSettles | error.md:23-23 | from the start, without faults and closes, exceptions suppressed or not: where no work is left a call has no answer if and only if its handler disabled the response, or it is queued for a function that lets an exception escape whatever it reads; nothing else is left in the table or pending |
| Progress.SuppressedCallsSettle | src/dispatcher.cpp:84-91 | with exceptions suppressed exactly the calls whose handler disabled its response have no answer |
| Progress.CallCanRun | src/dispatcher.cpp:84-91 | a queued call's job can run if and only if its function does not always let an exception escape |
| Reachable.RunsRefineAtomicMap | src/client.cpp:166-183 | every run, under any interleaving, chunking, worker order and faults, is a run of an atomic map that answers each call with its own function's outcome |
| Reachable.FuturesNeverChange | include/client.inl:3-13 | after any run: a ready future, and the run recorded for a call, never change, whatever follows |
| Reachable.NoCallRunsTwice | src/detail/server_session.cpp:68-74 | after any run: a call's job that is about to run is for a call that has not run, with its own name and arguments; afterwards it has |
| Reachable.CallsAreConserved | src/client.cpp:271-285 | after any run each call is resolved or in exactly one of eleven places, once; a resolved one is in none, and no frame leads to it |
| Reachable.TableHoldsTheUnresolved | src/client.cpp:181-183 | after any run a call past its strand step is in ongoing_calls while unresolved; resolved, it is there exactly while its erasure waits in the strand, and no erasure waits without its entry |
| Reachable.EntriesComeAndGoOnTheStrand | src/client.cpp:274-274 | after any run the next step adds an entry only by running that call's handler, takes one away only by running its erasure, and changes none |
| Reachable.RepliesFindTheirCalls | src/client.cpp:169-176 | after any run a response finds an existing entry with an unset promise, and sets that promise alone |
| Reachable.WorkRunsOut | src/client.cpp:273-284 | from any reachable connected state, no schedule of working steps goes on for ever |
| Reachable.WorkCanBeFinished | src/client.cpp:273-284 | and some schedule of them reaches a state with no work left |
| Notifications.NoteStep | src/client.cpp:262-268 | each step moves a notification along, or posts one, runs one's handler once, or drops one by a fault |
| Notifications.NotificationsAreConserved | include/client.inl:40-52 | after any run each posted notification is in exactly one of five places on its way, or has been handled once, or dropped once by broken_pipe or a closed session |
| Notifications.CalmDropsNothing | src/detail/async_writer.cpp:65-77 | without faults and closes no notification is dropped |
| Notifications.EveryNotificationIsHandled | src/dispatcher.cpp:120-150 | from the start, without faults and closes, where no work is left each notification has been handled exactly as often as it was posted, except for those queued for a function that always breaks its worker |
| Lifecycle.ConnectedExactly | src/client.cpp:88-91 | over any run the client is connected if and only if its connect handler has run |
| Lifecycle.CloseTaskCloses | src/detail/server_session.cpp:104-118 | a close request that runs closes the session, be it for the session or for the server |
| Lifecycle.ClosedExactly | src/detail/server_session.cpp:104-118 | over any run a close request that a handler made is on its way or carried out; and there is none otherwise, unless another thread closes |
| Lifecycle.CloseRequestsAreCarriedOut | src/detail/server_session.cpp:104-118 | from the start: where no work is left the session is closed if a handler asked, and only then or by another thread |
| Lifecycle.ReadingEndsExactly | src/detail/server_session.cpp:62-62 | over any run the session reads on if and only if it has not discarded a frame; afterwards it unpacks nothing |
| Lifecycle.ClosedTakesNoJobs | src/detail/server_session.cpp:51-62 | a closed session stays closed and takes no further job |
| Lifecycle.WorkerKeepsState | src/detail/server_session.cpp:68-74 | a job leaves its worker, and no other, with the state its handler made |
| Lifecycle.ClientWritesFreely | src/detail/async_writer.cpp:52-55 | nothing in the model keeps a started write of the client from sending, completing or failing |
| Lifecycle.ServerWritesFreely | src/detail/async_writer.cpp:52-55 | the same for the session, with or without another thread closing it |
| Lifecycle.EndpointsAreFree | src/client.cpp:155-157 | nor the network from delivering, nor users from posting, nor the session from being closed |
| Lifecycle.JobsAreFree | src/detail/server_session.cpp:65-68 | nor any job from running on any idle worker |
| Registries.OkStep | src/server.cpp:57-93 | each handler keeps the list in order of acceptance, with every open session, and a closed one only with its removal pending |
| Registries.RegistryAlwaysOk | src/server.cpp:57-93 | so does every run |
| Registries.ClosesAreIdempotent | src/detail/server_session.cpp:33-42 | however often and from wherever sessions are closed, once no removal is pending the list is exactly the open sessions |
| Registries.CloseAllClosesAll | src/server.cpp:79-93 | close_sessions leaves no accepted session open |
| Registries.AcceptsUntilStopping | src/server.cpp:72-74 | over any run the accept is armed if and only if no accept handler has seen the stop request; afterwards nobody is accepted |
| Registries.RemovalsBalance | src/detail/server_session.cpp:38-41 | each close posts one removal, each removal uses one up |
| Registries.RemovalsDrain | src/server.cpp:179-190 | the pending removals can all run, in exactly as many handlers, and then the list is exactly the open sessions |
| Registries.EraseRemoves | src/server.cpp:185-188 | erasing the first match removes that session and no other |
| Registries.ServerImpl.OnAccept | src/server.cpp:59-76 | a session is added when the accept succeeded; the accept is re-armed unless stopping |
| Registries.ServerImpl.CloseSessions | src/server.cpp:79-93 | list cleared, every listed session closed once, accept cancelled if stopping |
| Registries.ServerImpl.CloseOne | src/detail/server_session.cpp:33-42 | one session closed and one removal posted, also when it was closed before |
| Registries.ServerImpl.RunRemoval | src/detail/server_session.cpp:38-41 | a posted removal runs |
| Registries.ServerImpl.CloseSession | src/server.cpp:179-190 | the session leaves the list if it is there; the others stay in order |
| Connecting.ReconnectBound | src/client.cpp:85-149 | for any pattern of failures at most max attempts and 2^max - 2 seconds; the client gives up if and only if max attempts failed, after exactly that long |
| Connecting.PossibleOutcomes | src/client.cpp:101-112 | exactly which patterns of connect results occur: at most the attempts left, and nothing after a success |
| Connecting.DefaultBackOff | include/client.h:40-49 | with the default closure five attempts and 30 seconds |
| Connecting.RefusesOnce | include/client.h:43-48 | the closure says no on the max-th call and on no other |
| Connecting.StateOfRuns | src/client.cpp:155-211 | over any run: connected if and only if a connect succeeded and no eof or reset came; reading if and only if no read failed; disconnected if and only if eof, reset, or all attempts failed |
| Connecting.StateOnlyAdvances | src/client.cpp:195-207 | the state moves only from initial to connected to disconnected, or initial to disconnected; is_connected is never reset |
| Connecting.Reconnectable.Call | include/client.h:40-49 | counts one failure; tries again after 2, 4, 8, ... seconds unless it was the last |
| Connecting.Connector.OnConnect | src/client.cpp:85-113 | connected and reading; or another attempt; or disconnected and an exception |
| Connecting.Connector.OnRead | src/client.cpp:157-211 | the next read; or disconnected on eof or reset; or neither |

## Left out

- Sockets, the resolver, asio and threads: completions are steps of the environment (bytes sent, done, broken_pipe, another error, bytes read, eof), and a strand is a FIFO of handlers.
- Two assumptions on writes: a zero-length write succeeds, and a notification dropped on broken_pipe had sent none of its bytes.
- MessagePack beyond nil, int, str and array (floats, booleans, maps, bin, ext): such lead bytes are malformed in the model. Zones and the lifetimes of shared objects are values here; a moved-from buffer is empty.
- msgpack-c's tolerance of arrays longer or shorter than the tuple they convert to: the model refuses them; no frame of either side is affected.
- The union member read as an array size for a nil object (`via.array.size`): taken as 0. Where `arity` is 0 and the argument object is no array, as the code does, the conversion is skipped.
- The texts of error messages: one tag each. The function name that an RpcError carries.
- Logging, `ThreadGroup`, `io.stop`, destructors (with the promise that they wait for pending work), moving a `Server`, `names`, the examples and scripts.
- Binding and unbinding while the server runs: the composed system has a fixed function table.
- Exceptions that escape a worker or the client's io thread: in the composed system such a handler has no step, so it halts there; the classes report it.
- A user-supplied `reconnectable`: only the default closure is modelled. In the composed system connecting is one step at any time; `Connecting` has the retries.
- A caller that times out: a step without effect, since `call` only stops waiting for its future.
- Guarantees.AlwaysGood: assumes that fewer than 2^32 ids are taken during the life of any one call; beyond that two live calls would share an id.
- Systems: one client and one session of the server; other clients only occupy workers and are part of the free choice of when a job runs.
- Registries.OkStep: for one worker. With several, a session may close between its start and its being listed, and then stays listed.
- `this_server().stopping()` as a request to stop the server: it is read on whatever thread runs, so the registry takes it as a parameter of each handler.
