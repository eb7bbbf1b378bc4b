# wshttp in Dafny

A model of the event loop of wshttp and of what is built on it, with proofs. It needs Dafny 4.11;
`dafny verify dfyconfig.toml --verification-time-limit 0` checks all of it.

## What is modelled

**Event loop.** Any number of threads push jobs under a mutex and activate a libevent waker; the loop thread swaps the
whole queue out and drains it without the lock. `Programs.dfy` gives job bodies: a finite tree of steps that
read and write the state of the loop thread with arbitrary functions, branch on it, use `call_soon`, `call` and
`call_get` again, and return or throw.
It has a plain meaning (`Eval`) and a small-step machine (`Advance`), so that other threads interleave inside a body.
`EventLoop.dfy` is the transition system: per-thread program counters, queue, swapped batch, waker mark, promises, the
running body with its stack, and a history. `EventLoopInvariant.dfy`, `Linearizability.dfy`, `SubmissionOrder.dfy` and
`Progress.dfy` hold what is proved over all its runs. `EventLoopObject.dfy` is the class with the mutable queue; each of its methods performs
steps of the transition system, so every theorem about reachable states holds of the object.

**On the loop.** `Registration.dfy`: `endpoint::listen` and `close_listener` from any threads and inside any bodies.
`Destruction.dfy`: the deleters of `make_shared` and `shared_ptr`, as calls of the event loop. `Timers.dfy`:
`call_later`, one-shot handlers with the references that keep them alive, the registry of weak pointers and the split of
a delay into seconds and microseconds. `DeferredJobs.dfy`: the job of `call_later` as a body of the event loop.

**HTTP/2, inbound.** `SessionOutput.dfy`: back-pressure between nghttp2, `send_hook` and the bufferevent.
`StreamIndex.dfy`: the map of streams under any sequence of nghttp2's hooks (stream identifiers are those of section
5.1.1 of RFC 9113, END_STREAM that of sections 6.1 and 6.2).

**Printers and addresses.** `HexDump.dfy`, `ElapsedStamp.dfy` (with `Numerals.dfy`), `ByteOrder.dfy`, `Address.dfy`. `Basics.dfy` holds what several modules use.

## Assumptions

- libevent clears the waker's active mark before it enters the waker's callback, and runs callbacks one at a time on the
  loop thread. `event_active` may be called from any thread. `event_new` and `event_add` succeed.
- Jobs terminate: a body is a finite program.
- `process_job_queue` has no `catch`, the wrapper of `call_get` has one. So a bare job that throws ends the process; this
  is modelled, not excluded (`alive`). Other libevent callbacks may or may not catch what they throw (`Handler`); the
  `catch` of the ticker callback sees only what derives from `std::exception`.
- A critical section, a call of `event_active` and the setting of a promise are each one atomic step.
- `std::shared_ptr` calls the deleter of an object once, on the thread that drops the last reference.
- Only `listen` and `close_listener` change the table of listeners, and only deleters destroy the objects in question.
- `steady_clock` does not go back and libevent never runs a timer before the interval given to it has passed on that
  clock.
- nghttp2 offers chunks in the order in which it produced them, none of them empty, and wants to write exactly when it
  has one. After a refusal it offers the same chunk again. Draining the output buffer completely makes the write callback
  due. nghttp2 forgets the user data of a stream when it has called the close hook.
- `stream::recv_frame`, listener construction, the library's integer hashes and the endianness of the machine are
  parameters.

## Where the code does less than its intent

- `listen` inserts a null entry before it constructs the listener and leaves it there when the construction throws. Then
  the port is taken and `close_listener` removes an entry that no `listen` reported. Without failed constructions
  successful listens and closes alternate; with them they do exactly when no such entry has been removed
  (`SuccessesAlternate`, `FailedConstructionBreaksAlternation`).
- With `loop_deleter` a release on a foreign thread can return before the object is destroyed, or after
  (`LoopDeleterMayReturnEarly`, `LoopDeleterMayReturnLate`).
- A listener closes the port it is bound to, the table is keyed by the port it was asked for. So a listener that closes
  itself removes its own entry exactly if it was not asked for on port 0 (`SelfCloseFreesItsEntry`).
- A read that nghttp2 rejects requests a close without sending, so what nghttp2 has queued by then can stay behind.
  Nothing else stalls sending (`StallsExactlyOnFailure`, `FailedReadStalls`).
- The split of a delay gives a negative `tv_usec` for negative delays that are not whole seconds (`TimevalExact`, `NegativeDelaySplitsBadly`).
- `ipv6::to_in6` converts single bytes, which is no conversion: it returns the network bytes exactly on a big-endian
  machine or when both bytes of each group are equal (`ToIn6RoundTrip`, `ToIn6Swaps`).

## Model

| member | source | states |
|---|---|---|
| Programs.AdvanceKeepsMeaning | include/wshttp/loop.hpp:97-114 | every small step of a body on the loop thread, with `call` and `call_get` inline at any depth, keeps the plain meaning: same final state, outcome and posted jobs |
| Programs.AdvanceCosts | include/wshttp/loop.hpp:97-114 | a body and everything on its stack takes a bounded number of steps, posts included |
| Programs.ExceptionsTravel | include/wshttp/loop.hpp:97-133 | an exception leaves an inline `call` at once, and is handed to the caller of `call_get`, which goes on |
| EventLoopInvariant.OthersStay | include/wshttp/loop.hpp:107-186 | a step moves the program counter of at most the thread that takes it, and to the one place in `call_soon` or `call_get` that comes next |
| EventLoopInvariant.ConservedKept | src/loop.cpp:336-354 | every step keeps: jobs pushed, in lock order, are those started, then the swapped batch, then the queue; those started have ended, but for the one that runs |
| EventLoopInvariant.WakeupKept | include/wshttp/loop.hpp:177-186 | every step keeps: a non-empty queue has an active waker, a woken loop, or a thread between its push and its `event_active` |
| EventLoopInvariant.AllAfter | src/loop.cpp:336-354 | starting, ending and swapping leave the overall sequence of bodies as it is, a push appends to it, a callback goes in front of the queue |
| EventLoopInvariant.IdentifiedKept | include/wshttp/loop.hpp:116-133 | every step keeps: no job occurs twice among ended, running and waiting ones, and no two calls share a promise |
| EventLoopInvariant.OwnedKept | include/wshttp/loop.hpp:116-135 | every step keeps: a pending `call_get` job has its caller inside that call and its promise unset; a caller inside the call has its job pending or its answer stored |
| Linearizability.MeaningKept | src/loop.cpp:336-354 | every step keeps: the loop thread's state and posted jobs are those of the sequential replay of the ended bodies, continued by the running one, also in the middle of it |
| Linearizability.SequentialSnoc | src/loop.cpp:348-353 | one more body at the end of the order extends the replay by its plain meaning |
| Linearizability.CallGetIsLinearizable | include/wshttp/loop.hpp:107-136 | in every interleaving there is one order of the bodies such that each ended as in the sequential replay, each returned `call_get` gave its own body's value or exception, and a call that returned before another began comes first |
| Linearizability.NoLostWakeup | include/wshttp/loop.hpp:177-186 | no lost wakeup in any reachable state |
| Linearizability.JobsConserved | src/loop.cpp:336-354 | in every reachable state: pushed equals started, batch, queue in lock order; jobs are distinct; each thread's submissions are pushed in program order |
| Linearizability.ProcessDiesExactly | src/loop.cpp:348-353 | in every run the process is gone if and only if a bare job or a callback without a `catch` has thrown; a `call_get` job or a guarded callback never ends it |
| Linearizability.LoopPostsAreReplayed | include/wshttp/loop.hpp:177-186 | whenever no body runs, the jobs the loop thread itself has pushed are exactly those the replay posts, in order, and its state is that of the replay |
| SubmissionOrder.LinedKept | include/wshttp/loop.hpp:177-186 | every step keeps: a call that has returned has its job in the log from before its return, and a call that begins has none yet |
| SubmissionOrder.SubmissionsAreFifo | include/wshttp/loop.hpp:107-186 | in every interleaving and across threads, a `call_soon` or `call_get` that returned before another call began has its job pushed, and pushed first |
| Progress.RemainingAfter | src/loop.cpp:336-354 | the bound on the loop steps before a pending job has ended: foreign steps leave it, loop steps lower it, a dispatched callback adds its own cost |
| Progress.PositionAfter | src/loop.cpp:348-353 | the position of a pending job grows only by a dispatched callback, and drops by one with each body that ends |
| Progress.EndsWithinBound | src/loop.cpp:336-354 | over any run a pending job has ended, or its bound has dropped by the loop steps taken, apart from those of callbacks |
| Progress.WaitingThreadsOwnOneJob | include/wshttp/loop.hpp:110-135 | a thread in `fut.get()` is not the loop thread and owns exactly one job, which is pending with its promise unset, or has ended with its outcome in the promise |
| Progress.FrameOutlivesJob | include/wshttp/loop.hpp:116-133 | while a `call_get` job runs its caller is inside that very call, so the references to `f` and `prom` are into a live frame; the promise is still unset |
| Progress.BlockedCallersAreAnswered | include/wshttp/loop.hpp:110-135 | from any reachable state, after as many loop steps as the bound of its job says, the job has ended and its caller, if still in the call, has its answer |
| Progress.NeverStuck | src/loop.cpp:322-354 | while something is pending and the process lives, the loop thread can move or a thread that has pushed can call `event_active` |
| Progress.DrainRunsTheSwappedJobs | src/loop.cpp:336-354 | at any point of a drain: the batch is run in order, what is pushed meanwhile goes behind the queue, and the steps taken are within the cost of the batch |
| Progress.DrainIsExact | src/loop.cpp:336-354 | a drain has a loop step to take until its end, takes at most as many as its jobs cost, has then run exactly the jobs present at the swap, and everything pushed meanwhile is what the queue holds |
| EventLoopObject.Loop.constructor | include/wshttp/loop.hpp:94-186 | a new loop is in the initial state of the transition system |
| EventLoopObject.Loop.Submit | include/wshttp/loop.hpp:177-186 | pushes one job at the end and activates the waker, which are the steps of a foreign `call_soon` or of the first half of `call_get` |
| EventLoopObject.Loop.Await | include/wshttp/loop.hpp:135 | returns the stored outcome of the caller's own job and frees the promise |
| EventLoopObject.Loop.Post | include/wshttp/loop.hpp:177-186 | `call_soon` on the loop thread appends a bare job to the live queue, not to the batch |
| EventLoopObject.Loop.Invoke | include/wshttp/loop.hpp:97-114 | running a body inline by recursion gives its plain meaning and takes the steps of the stack machine |
| EventLoopObject.Loop.InvokeCall | include/wshttp/loop.hpp:97-105 | `call` on the loop thread: the callable runs inline, an exception leaves the caller too |
| EventLoopObject.Loop.InvokeCallGet | include/wshttp/loop.hpp:107-114 | `call_get` on the loop thread: inline, never through a promise; its caller sees the outcome |
| EventLoopObject.Loop.SwapQueue | src/loop.cpp:341-346 | the critical section takes the whole queue and leaves it empty |
| EventLoopObject.Loop.RunJob | src/loop.cpp:348-353 | one turn of the drain: the job has its plain effect, a `call_get` job stores its outcome in its own promise, a bare job that throws ends the process |
| EventLoopObject.Loop.ProcessJobQueue | src/loop.cpp:336-354 | state, posted jobs, promises and survival are those of `Drain` on the queue at entry; exactly those jobs were started |
| EventLoopObject.Loop.Dispatch | src/loop.cpp:322-334 | the waker's callback clears the mark first and then drains |
| EventLoopObject.ObjectIsLinearizable | include/wshttp/loop.hpp:94-136 | every state of the object is linearizable, has no lost wakeup, and between bodies equals the sequential replay |
| Registration.BodyDoes | include/wshttp/endpoint.hpp:83-99 | the two-step body of `listen` and the body of `close_listener` have the specified answer and effect on the table, and touch and post nothing else |
| Registration.TraceOfRequest | include/wshttp/endpoint.hpp:83-99 | a body that is a `listen` or a `close_listener` makes that call and no other |
| Registration.InlineClose | src/listener.cpp:66-70 | the job a listener posts to close itself makes one `close_listener` call, inline |
| Registration.SelfCloseFreesItsEntry | src/listener.cpp:66-122 | the self-closing job of a listener removes the listener's own entry if and only if the port asked for was not 0 |
| Registration.TraceExplains | src/endpoint.cpp:43-53 | whatever a body does and however deep it calls inline, each of its calls is answered from the table at that moment, and the calls account for the whole change of the table |
| Registration.TakenIsRegistered | include/wshttp/endpoint.hpp:86-90 | a port is in the table exactly when some `listen` was not refused and no `close_listener` came after it |
| Registration.ExplainedIsExclusive | include/wshttp/endpoint.hpp:83-99 | on the answers alone: a `listen` is refused if and only if an earlier one was not and no close came in between; between two that succeed there is a close |
| Registration.InsertionsAlternate | src/endpoint.cpp:43-53 | per port, insertions and removals strictly alternate; the port is registered exactly after an insertion, and holds a listener exactly if its construction succeeded |
| Registration.SuccessesAlternate | include/wshttp/endpoint.hpp:83-99 | successful listens and successful closes alternate if and only if no entry left by a failed construction has been removed |
| Registration.FailedConstructionBreaksAlternation | include/wshttp/endpoint.hpp:83-99 | for the two methods, whoever calls them: a failed listen, a close and a listen give two successes of which the first is the close |
| Registration.NothingIsClaimed | include/wshttp/endpoint.hpp:90-96 | if all constructions succeed no entry is left behind without a listener |
| Registration.PortsAlternate | src/endpoint.cpp:43-53 | for every sequence of calls, per port: insertions and removals alternate, the successes the callers wanted do exactly if no leftover entry was closed, and if all constructions succeed they are all that happened |
| Registration.RegistrationIsExclusive | include/wshttp/endpoint.hpp:83-99 | over every interleaving, with calls from any threads and inside any bodies: a `listen` is refused exactly when an earlier one was not and no close came in between, and between two successful ones of a port there is a close |
| Registration.CallsAreAccounted | include/wshttp/endpoint.hpp:83-99 | in every run each answer is that of the table at the moment of its call, a request from a thread gets it as the outcome of its `call_get`, and the calls account for the table |
| Registration.Endpoint.constructor | include/wshttp/endpoint.hpp:78-83 | a new endpoint has served nothing and listens nowhere |
| Registration.Endpoint.Listen | include/wshttp/endpoint.hpp:83-99 | the answer and the new table for a free port, a taken port and a failed construction |
| Registration.Endpoint.CloseListener | src/endpoint.cpp:43-53 | the port is free afterwards; closing a free port changes nothing |
| Destruction.DestroyedAfter | include/wshttp/loop.hpp:214-250 | objects are destroyed one at a time, and only by the loop thread's own step that begins the destruction |
| Destruction.PushedIsNoDeletion | include/wshttp/loop.hpp:94-105 | the loop thread never posts a destruction; foreign threads push exactly those of their releases |
| Destruction.AccountAfter | include/wshttp/loop.hpp:214-250 | every step of any thread: releases are conserved - not yet pushed, queued, about to run, or the object destroyed |
| Destruction.GoneKept | include/wshttp/loop.hpp:116-133 | every step keeps: when the body of a release has ended its object is destroyed |
| Destruction.DestructionDiscipline | include/wshttp/loop.hpp:214-250 | in every interleaving: an object is destroyed at most as often as it was released, and as often once nothing is on its way; a `wrapped_deleter` that has returned from a foreign thread has its object destroyed |
| Destruction.ReleasedIsDestroyedInTime | include/wshttp/loop.hpp:214-250 | from any reachable state a pending destruction has begun after as many loop steps as its place in the queue costs |
| Destruction.LoopReleaseIsImmediate | include/wshttp/loop.hpp:94-114 | a release inside a body on the loop thread, with either deleter, has the object destroyed by the second loop step, whatever other threads do in between |
| Destruction.LoopDeleterMayReturnEarly | include/wshttp/loop.hpp:214-222 | a run in which the release of a `loop_deleter` object has returned and nothing is destroyed |
| Destruction.LoopDeleterMayReturnLate | include/wshttp/loop.hpp:177-186 | a run in which the object is destroyed before its release returns: the loop was awake between the push and the `event_active` |
| Timers.TimevalExact | src/loop.cpp:40-45 | seconds and microseconds recombine exactly, in nanoseconds too; `usec` is in range if and only if the delay is not negative or a whole number of seconds; no other split is |
| Timers.NegativeDelaySplitsBadly | src/loop.cpp:40-45 | a delay of minus one microsecond gives a negative `tv_usec` |
| Timers.LiveKeeps | src/loop.cpp:285-297 | the specified filter keeps exactly the live entries, as often as they were there |
| Timers.Registry.constructor | src/loop.cpp:285-305 | a new registry has no entries |
| Timers.Registry.EraseExpired | src/loop.cpp:289-295 | the in-place erase loop over one list equals the order-preserving filter of live entries |
| Timers.Registry.ClearOldTickers | src/loop.cpp:285-297 | the pass filters the list of every caller id and nothing else |
| Timers.Registry.MakeHandler | src/loop.cpp:299-305 | purges, then appends a new live handler to the list of its caller id |
| Timers.MakeEntries | src/loop.cpp:299-305 | per caller id: live entries in order, and the new one last for its own id |
| Timers.LiveEntriesStay | src/loop.cpp:285-305 | no pass removes the entry of a handler that exists, whatever the caller id |
| Timers.DeadEntriesGo | src/loop.cpp:285-305 | after a pass only handlers that exist have entries |
| Timers.AliveKept | include/wshttp/loop.hpp:189-204 | every step keeps: an armed handler is referred to by its own callable, a firing one from the stack alone, every handler that exists is referred to, and each pending one has one entry |
| Timers.TimersAfter | include/wshttp/loop.hpp:189-204 | dropping a reference, even the last one, never takes a timer along: timers go only by firing |
| Timers.TrackedKept | include/wshttp/loop.hpp:156-175 | every step keeps: a request is queued, armed or run, and only one of these |
| Timers.TruncationLosesLittle | include/wshttp/loop.hpp:170-173 | what the job asks of the timer, in microseconds, is less than a microsecond short of the time left and never more |
| Timers.LaterIsDue | include/wshttp/loop.hpp:163-165 | a `call_later` from another thread queues a job with the time at which its delay has passed |
| Timers.LaterOnLoopArms | include/wshttp/loop.hpp:159-162 | on the loop thread it arms a timer for exactly that time |
| Timers.JobRunsOrArms | include/wshttp/loop.hpp:165-174 | the job runs the hook if its time has come; otherwise it arms a timer for a deadline in (target - 1000, target + lag] nanoseconds and runs nothing |
| Timers.OnTimeKept | include/wshttp/loop.hpp:156-175 | every step keeps: each armed deadline is less than a microsecond before the time of its request and at most the lag of its job after it; no hook has run a whole microsecond early |
| DeferredJobs.RequestsAreSettled | include/wshttp/loop.hpp:163-174 | on the event loop, from any reachable state and over any interleaving: after as many loop steps as its place costs, the job of a `call_later` has run exactly once, and has run the hook if the time had come, else armed the timer and nothing more |
| Timers.HooksRunOnceAndOnTime | include/wshttp/loop.hpp:156-175 | in every run a `call_later` hook runs at most once, is never lost before it has, and runs less than a microsecond before its target time at the earliest |
| Timers.HooksCanRunInTime | include/wshttp/loop.hpp:156-204 | in every run, from the time of a request plus the lag of its job on, its armed hook can run whenever no other one runs |
| Timers.OneshotLifetime | include/wshttp/loop.hpp:189-204 | in every run a one-shot handler exists exactly from arming until its hook is over, kept by the one reference in its own callable, then on the stack; it has exactly one entry for that time |
| Timers.FiredHandlerIsPurged | src/loop.cpp:285-305 | after its hook no reference to the handler is left and it is destroyed without disarming a timer; a `make_handler`, for any id, removes its entry |
| Timers.FiredHandlerIsGoneForGood | src/loop.cpp:285-305 | over every run after its hook: the handler never exists again, and from the first `make_handler` on it has no entry for any id |
| Timers.PurgeTwice | src/loop.cpp:285-297 | a purge right after another changes nothing |
| SessionOutput.AcceptsFit | src/session.cpp:192-207 | the number of chunks one send takes is the least that fills the buffer to the threshold, or all |
| SessionOutput.FlushedConserves | src/session.cpp:181-190 | a send moves a prefix of the chunks to the end of the buffer and keeps the rest in order |
| SessionOutput.FlushedFills | src/session.cpp:181-207 | a send stops only when nothing is left or the buffer is at the threshold, and makes progress below it |
| SessionOutput.FlushedOnce | src/session.cpp:192-207 | accepting the first chunk and then sending is the same as sending |
| SessionOutput.FlushedDone | src/session.cpp:192-207 | a send with nothing to offer, or refused at once, changes nothing |
| SessionOutput.FlowingKept | src/session.cpp:142-190 | every callback and drain keeps sending alive, but for a failing read |
| SessionOutput.StallsExactlyOnFailure | src/session.cpp:142-190 | one callback stalls sending if and only if it is a failing read with something queued, nothing buffered and no write callback due |
| SessionOutput.FailedReadStalls | src/session.cpp:142-159 | a run the session can make - settings sent, drained, write callback - after which a failing read for which an answer was queued stalls |
| SessionOutput.SendingNeverStalls | src/session.cpp:142-207 | over every interleaving: drained, buffered and pending bytes are the produced ones in order; accepted ones are drained and buffered; without a failed read pending bytes have a full buffer or a due callback ahead of them |
| SessionOutput.OutputIsBounded | src/session.cpp:192-207 | the buffer stays below the threshold plus the largest chunk |
| SessionOutput.ClosesOnlyWhenDrained | src/session.cpp:166-176 | in every run, when a write callback is the first to request the close, all that was produced has been accepted and drained |
| SessionOutput.CloseIsRequestedExactly | src/session.cpp:142-179 | in every run the session is asked to close if and only if some read failed, or some write callback found nothing buffered, nothing pending and nothing to read for |
| SessionOutput.EverythingIsDelivered | src/session.cpp:161-179 | from every flowing state draining and write callbacks alone bring out every byte, within a bound |
| SessionOutput.Session.constructor | src/session.cpp:142-190 | a new session is in the initial state |
| SessionOutput.Session.SendHook | src/session.cpp:192-207 | a refusal changes nothing; otherwise the whole chunk is taken and its length returned |
| SessionOutput.Session.SendSessionData | src/session.cpp:181-190 | moves bytes from the chunks to the buffer, in order, until nothing is left or the buffer is at 2^16, and never asks to close; it is the send of the transition system |
| SessionOutput.Session.SendInitial | src/session.cpp:438-452 | queues the settings and sends |
| SessionOutput.Session.ReadSessionData | src/session.cpp:142-159 | a read that fails asks to close and sends nothing; one that does not sends all that fits and asks nothing |
| SessionOutput.Session.WriteSessionData | src/session.cpp:161-179 | with bytes buffered nothing happens; with nothing buffered, pending or to read for it asks to close; else it sends all that fits |
| StreamIndex.KeyInjective | include/wshttp/session.hpp:37 | nghttp2's signed ids become unsigned keys modulo 2^32, and no two are merged |
| StreamIndex.OpeningMeans | src/session.cpp:470-541 | the open stream of an id is the opening hook after which it was not closed and before which all openings were; there is none if and only if all openings were closed |
| StreamIndex.ReceivedMeans | src/session.cpp:605-635 | the frames counted for an open stream are the DATA and HEADERS frames of its id with END_STREAM behind the hook that opened it |
| StreamIndex.Stream.constructor | src/session.cpp:648-652 | a new stream object carries the id it was made for |
| StreamIndex.InboundSession.constructor | include/wshttp/session.hpp:37 | a new session has no streams |
| StreamIndex.InboundSession.BeginHeadersHook | src/session.cpp:508-541 | HEADERS of a request give a new id one stream object, also as user data, and leave a known id its own; any other frame changes nothing |
| StreamIndex.InboundSession.Emplace | src/session.cpp:519-540 | map and user data get the same new object |
| StreamIndex.InboundSession.FrameRecvHook | src/session.cpp:605-635 | a DATA or HEADERS frame with END_STREAM reaches the stream with its id and no other, and without one fails with -902; any other frame returns 0 and reaches none |
| StreamIndex.InboundSession.StreamCloseHook | src/session.cpp:470-484 | exactly the stream with this id goes |
| StreamIndex.InboundSession.Drive | src/session.cpp:470-652 | over every sequence of hooks: one object for each id opened and not closed and no other, made by the request HEADERS that opened it, with that id as key, the same object as nghttp2's user data, and exactly the END_STREAM frames since then received |
| HexDump.ToString | src/internal.hpp:200-236 | the nested loops append exactly the specified text |
| HexDump.HexArea | src/internal.hpp:212-221 | the first inner loop writes 32 cells, blank behind the last byte |
| HexDump.GlyphArea | src/internal.hpp:223-232 | the second inner loop writes one glyph per byte of the row |
| HexDump.HexIsPadded | src/internal.hpp:220 | two hexadecimal digits are what the format `02x` prints |
| HexDump.DumpIsInvertible | src/internal.hpp:200-236 | a decoder that reads only the text recovers the buffer, for every length and any width of the offsets |
| HexDump.DumpIsInjective | src/internal.hpp:200-236 | buffers that print alike are equal |
| HexDump.RowLayout | src/internal.hpp:209-233 | the text of a row: at least four digits that give its offset, a blank, 72 characters in which each byte has its two digits and a missing one is blank, and between the bars one glyph per byte - itself, the empty set for 0, a dot for any other; no line break |
| HexDump.HeaderIsReadable | src/internal.hpp:205 | the header gives the length in decimal and in hexadecimal, without leading zeros |
| HexDump.DumpReads | src/internal.hpp:200-236 | the whole text: header, then as many rows as 32 bytes to a row take, and behind the r-th line break the row whose printed offset is 32 r |
| HexDump.RowCount | src/internal.hpp:207 | there are as many rows as 32 bytes to a row take, rounded up |
| Numerals.PaddedIsNumeral | src/internal.hpp:209 | a padded number reads back as itself, in any base used, and is as wide as asked or wider |
| Numerals.PrintIsMinimal | src/internal.hpp:205 | an unpadded number has no leading zero |
| ElapsedStamp.SplitRecombines | src/format.cpp:48-55 | the fields recombine to the whole milliseconds and the chosen format omits only zero fields |
| ElapsedStamp.StampReads | src/format.cpp:33-56 | reading only the text, with what stands behind the point as a decimal fraction of a second, gives the whole milliseconds |
| ElapsedStamp.StampForm | src/format.cpp:33-56 | the text itself: a plus, exactly the units the duration reaches with their letters, two digits for minutes and seconds behind a larger unit, three for the fraction, no leading zeros in front |
| ElapsedStamp.StampsAgree | src/format.cpp:33-56 | two durations print alike if and only if their whole milliseconds agree |
| ByteOrder.SwapGivesBigEndian | include/wshttp/encoding.hpp:23-32 | swapping what a little-endian machine loads gives the big-endian value, for any width |
| ByteOrder.SwapStores | include/wshttp/encoding.hpp:23-32 | swapping and storing on a little-endian machine writes the most significant byte first |
| ByteOrder.LoadStore | include/wshttp/encoding.hpp:34-64 | storing what was loaded gives the bytes back |
| ByteOrder.NetworkToHost | include/wshttp/encoding.hpp:42-64 | network bytes give their big-endian value on every machine |
| ByteOrder.HostToNetwork | include/wshttp/encoding.hpp:34-56 | a host integer is written most significant byte first on every machine |
| ByteOrder.NetworkRoundTrip | include/wshttp/encoding.hpp:34-64 | bytes survive the way in and out |
| Address.Ipv4FromNetwork | src/address.cpp:43-47 | the address is the big-endian value of the four bytes |
| Address.Ipv4Agrees | include/wshttp/address.hpp:76-78 | the octet constructor agrees with the network bytes, and `to_in4` gives them back unchanged |
| Address.Ipv6FromNetwork | src/address.cpp:76-81 | each group is its first byte times 256 plus its second |
| Address.Ipv6PrinterBytes | src/address.cpp:105-115 | the bytes handed to `inet_ntop` are the groups most significant byte first, on every machine |
| Address.Ipv6PrintsItsBytes | src/address.cpp:76-118 | the printer gets the sixteen bytes the address was made from |
| Address.GroupsRoundTrip | src/address.cpp:76-81 | groups and network bytes determine each other |
| Address.ToIn6RoundTrip | src/address.cpp:95-103 | `to_in6` gives the network bytes if and only if the machine is big-endian or both bytes of every group are equal |
| Address.ToIn6Swaps | src/address.cpp:95-103 | the bytes of 2001:db8::1 do not come back on a little-endian machine |
| Address.CompareIsTotal | include/wshttp/address.hpp:191-192 | exactly one of less, equal and greater holds, the reverse comparison is the mirror image, and equal means equal |
| Address.CompareIsTransitive | include/wshttp/address.hpp:191-192 | the order is transitive |
| Address.CompareMeans | include/wshttp/address.hpp:191-192 | IPv4 addresses compare as numbers, IPv4 is before IPv6, the port decides between equal addresses and only between them |
| Address.FirstDifferenceDecides | include/wshttp/address.hpp:124-126 | of two IPv6 addresses the one with the smaller group at the first difference is smaller |
| Address.HashIpv6 | include/wshttp/address.hpp:248-254 | the hash is where an accumulator ends that starts at zero and takes the eight groups in order, each turn by the formula of the source |
| Address.HashIsWhereItEnds | include/wshttp/address.hpp:248-254 | that accumulator is determined by where it starts, so the hash is a function of the groups |
| Address.HashRespectsEquality | include/wshttp/address.hpp:257-265 | equal addresses hash alike although the port is ignored, and of those exactly the ones with the same port are equal |
| Address.HashTellsApart | include/wshttp/address.hpp:239-265 | two IPv4 addresses, or two IPv6 addresses that agree but for the last group, hash apart as far as the library's own hashes do |

## Left out

- Loop start and shutdown, thread joins, `stop_tickers`, endpoint shutdown: the loop keeps going.
- TLS contexts, certificates and ALPN (`src/context.cpp`), the DNS server (`src/dns.cpp`), URL parsing (`src/parser.cpp`).
- Outbound sessions and nodes, including `endpoint::connect`: nothing inserts an outbound stream and the initial send is unfinished.
- Repeating tickers, `start`, `stop` and the arguments that `_call_every` shifts, and the unused `exec_iterative`, `exec_oneshot` and `fire`.
- The files, pipes and sockets of `stream`, and what `recv_frame` does beyond queuing bytes.
- Request headers and settings, `const_span`, logging, formatting beyond the two printers above.
- The `_is_v4` flag, `uri::empty`, `recv_header_hook` and the comparisons with `_usp` literals, the test in `stream_d`, and the duplicate connection in the listener: small faults on which nothing here rests.
- That `read_session_data` does not drain its input: the answers of nghttp2 to each read are arbitrary instead.
- Bodies that capture run-time data in what they post, or loop as often as the state says: a body is a finite tree fixed before it runs, and such data and loops go through the state in single steps.
- That a listener asked for on a port other than 0 is bound to it, and the length that `getsockname` is given uninitialised: the bound port is a parameter.
- Exceptions of `send_session_data`, which nghttp2 raises on fatal errors, and callbacks of the network library that report errors.
- Construction of an address from text, and the text of an address beyond the bytes given to `inet_ntop`.
- The UTF-8 encoding of the hex dump: text is a sequence of code points.
- The width of the address integers is in their bounds; or-ing shifted octets is written as a sum.
- Collisions between IPv6 addresses that differ before the last group; on machines with a 32-bit `size_t` the accumulator is narrower.
- Registration.Endpoint.Listen: which of the ways a construction can fail has happened is a parameter.
- Destruction.DestructionDiscipline: counts calls of the deleter; who holds how many references before that is `std::shared_ptr`'s part. What the rest of a destructor changes besides releasing other objects is left open.
- Registration.Endpoint: shows the two bodies as methods, called one after the other; interleaving and inline calls are in the lemmas.
- EventLoopObject.Loop.ProcessJobQueue: in the object no foreign thread moves in the middle of a method; the interleavings are those of the transition system.
- Progress.BlockedCallersAreAnswered: counts steps of the loop thread, not time; that the thread is scheduled is the operating system's part.
- Timers.HooksRunOnceAndOnTime: the way of a posted `call_later` to the loop thread is one queue here; its steps are those of the event loop in `DeferredJobs`. That an armed timer fires at last is libevent's part; the model says it can from its deadline on.
- ElapsedStamp.StampReads: durations are not negative, the clock being steady.
