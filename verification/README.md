# A verified model of mod_http3's queues, schedulers and lifetimes

mod_http3 puts HTTP/3 into Apache httpd. Request workers from a thread pool and one QUIC event
thread meet in a handful of hand-written data structures: a bounded response queue with three
cursors into one linked list, a send loop that copes with partial and blocked QUIC writes, flags and
counters that decide when a stream or a session may be freed, a round-robin read scheduler, a
connection table with swap-with-last removal, and byte buffers on both ends. This project models
that logic in Dafny and proves what it promises, for every interleaving, every pattern of partial
writes and every batch size.

## How it fits together

| file | what it holds |
|---|---|
| `Options.dfy` | a value that may be missing |
| `ResponseQueue.dfy` | the response queue on values: append, pull, acknowledge, cancel, clean up |
| `ResponseList.dfy` | the same queue as the linked heap list the source keeps, each method proved against the value operation |
| `SendPath.dfy` | one stream's send path: its queue next to what nghttp3 and QUIC know of it, and the invariants every event keeps |
| `Session.dfy` | a session as a transition system: event thread and workers, one step per locked section or atomic operation |
| `SessionSafety.dfy` | the invariant of every reachable state, and what it means for memory, handles, counters and bytes |
| `SessionExample.dfy` | one request's whole life as a run, so that nothing above is said of no run at all |
| `WireLog.dfy` | the log of what QUIC was given to write and what it answered |
| `SessionRun.dfy` | runs as the code makes them: the run, the log of QUIC's answers along it, what workers may do between its steps, and what reached QUIC over a whole run |
| `SessionLaws.dfy` | what each step may change, field by field, named by the steps and the fields they read |
| `SessionHistory.dfy` | what must have happened in a run for a stream to be as it is, and what a worker that passes on its response piece by piece gets across |
| `FlushLoop.dfy` | the session object, with the run that led to it and the log of QUIC's answers; what workers may do to it; the send loop and the QUIC write as code |
| `StreamIo.dfy` | the log of what passes between the drain code, QUIC and nghttp3 |
| `DrainScheduler.dfy` | the round-robin cursor |
| `DrainRecord.dfy` | what a drain pass is, visit by visit and byte by byte, and the fairness of a series of passes |
| `DrainPass.dfy` | nghttp3's callbacks and the drain pass as code |
| `GoAway.dfy` | the control flow of a service pass over whole runs of passes |
| `StreamIntake.dfy` | accepting the streams QUIC opens, whatever their ids |
| `RequestDispatch.dfy` | handing completed requests to the worker pool |
| `ServicePass.dfy` | the whole service pass, pass after pass, and session destruction as code, with workers moving in between |
| `Connections.dfy` | the connection table and the event thread |
| `RequestBody.dfy` | the request body buffer and its reader |
| `ResponseCapture.dfy` | whole-response buffering |
| `Datagrams.dfy` | the datagram filter under the QUIC listener |

The concurrent part is kept in two layers. `Session` interleaves the threads freely, so a result about
a reachable state holds whatever the schedule. The methods of `FlushLoop`, `DrainPass`, `StreamIntake`,
`RequestDispatch` and `ServicePass` are the event thread's own code on a session object. The object
carries the run that led to it (`trail`) and the log of every write QUIC was asked for, with its answer
(`wire`). Only the two methods that stand for QUIC add to that log. Every method keeps `Ok()`: the
session's fields are what that run leads to from a fresh session, and what they say QUIC took,
concluded or broke off on each stream is what the log says. Wherever the source does not hold the
session lock the methods call `Workers`, which takes any steps any workers can take; so the runs are
mixed runs of both threads, and what is proved about reachable states holds of the code.

## What the environment is taken to do

- nghttp3 calls back about a stream the module still has in its table, or with no stream of the
  module's at all, and then the callback does nothing. It calls the data reader of a stream only while
  the stream is neither parked nor held back by flow control, and offers the front of one stream's
  backlog in at most 16 buffers that are not empty. What it pulls, offers or reports is otherwise a
  free choice. A stream parked after WOULDBLOCK stays parked until it is resumed.
- The bytes nghttp3 adds around body bytes are opaque `Frame` bytes; acknowledging bytes makes it call
  the acknowledge callback with the body bytes among them.
- QUIC hands out each stream handle once; stream ids may come again. A write takes any prefix of its
  buffer; one that takes nothing either may be asked again or has failed for good.
- Allocation, clocks, the thread pool, the socket and the timed wait answer as they like: their
  answers are arguments of the methods, or free choices.
- httpd hands a response to the module in order and does not append after the end of the response. What
  a worker is taken to pass on, and when it completes the response, is a hypothesis of the results
  that need it (`PassesOn`, `Finishes`), not a part of the model.
- Sizes that come from the configuration lie in the ranges its directives accept.

## Model

| member | source | states |
|---|---|---|
| `ResponseQueue.AckWithinPulled` | mod_http3/src/h3_session.c:296-326 | acknowledging n bytes, n no more than was pulled, removes exactly the first n unacknowledged bytes, lowers the buffered count by n, and leaves every byte and chunk that waits to be pulled as it was |
| `ResponseQueue.AckSafeExactly` | mod_http3/src/h3_session.c:296-326 | the queue is well formed after an acknowledgement if and only if it covered no more than was pulled or nothing was left to pull |
| `ResponseQueue.AckSafe` | mod_http3/src/h3_session.c:303-321 | under that condition no chunk at or past the submit cursor is freed, and what stays is what was there minus the acknowledged front |
| `ResponseQueue.PullMovesBytes` | mod_http3/src/h3_session.c:376-386 | a pull moves the front of the waiting bytes, whole chunks in order, to the pulled side, and no byte is lost or repeated |
| `ResponseQueue.PullVerdict` | mod_http3/src/h3_session.c:387-400 | the reader would block exactly when nothing waits and more may come, and reports the end exactly on the last byte of a complete response |
| `ResponseQueue.AppendAddsAtTail` | mod_http3/src/h3_session.c:222-263 | a stored chunk adds its bytes behind all others, keeps the queue within its bound and does not disturb what was pulled |
| `ResponseList.ChunkList.PushBack` | mod_http3/src/h3_session.c:246-263 | linking a chunk keeps the list well formed, puts it last, and aims a null submit cursor at it |
| `ResponseList.ChunkList.FreeHead` | mod_http3/src/h3_session.c:312-320 | only a head the submit cursor has passed is freed, once, and the tail goes null with the last chunk |
| `ResponseList.ChunkList.AckBytes` | mod_http3/src/h3_session.c:303-321 | the loop over the heap list frees exactly the chunks the value operation drops, and needs only that the submit cursor is not on one of them |
| `ResponseList.ChunkList.TakeSome` | mod_http3/src/h3_session.c:376-386 | the reader's loop hands over the chunks under the submit cursor in order, as many as there is room for |
| `ResponseList.ChunkList.Clear` | mod_http3/src/h3_session.c:348-359 | cleanup frees every listed chunk exactly once and leaves an empty list |
| `ResponseList.StreamResponse.StoreChunk` | mod_http3/src/h3_session.c:239-265 | the locked section of an append is the value operation, and the history of appended bytes grows by the chunk |
| `ResponseList.StreamResponse.AwaitRoom` | mod_http3/src/h3_session.c:206-220 | the timed wait, with other threads acting in between: room means a live queue below its bound, lost means cancelled or the session aborted, dead or gone, a failed wait means the wait it stopped at failed, and parked means the queue is still full and live |
| `ResponseList.StreamResponse.Append` | mod_http3/src/h3_session.c:196-276 | whatever other threads do meanwhile, the queue receives a prefix of the data in order, all of it exactly on success; each other answer has its cause: cancelled or session down, a wait that failed, the length would wrap, an allocation that failed, or a full queue |
| `ResponseList.StreamResponse.Ack` | mod_http3/src/h3_session.c:296-326 | the heap routine is the value operation, and the count of released bytes follows it |
| `ResponseList.StreamResponse.ReadData` | mod_http3/src/h3_session.c:362-401 | the data reader on the heap list gives the value operation's verdict and buffers |
| `ResponseList.StreamResponse.Cancel` | mod_http3/src/h3_session.c:328-340 | a cancelled response is also complete, and nothing else changes |
| `ResponseList.StreamResponse.Cleanup` | mod_http3/src/h3_session.c:342-360 | every chunk is freed once and everything appended counts as released |
| `SendPath.SubmitInv` | mod_http3/src/h3_request.c:197-229 | submitting a response, or cancelling it when nghttp3 refuses, keeps conservation, order, ending and no lost resume |
| `SendPath.AppendInv` | mod_http3/src/h3_session.c:222-269 | so does each locked section of an append, with its resume; what it stores is stated by `SessionLaws.AppendStoresFront` |
| `SendPath.CompleteInv` | mod_http3/src/h3_session.c:278-294 | so does completing the response, with its resume; that it does nothing else is stated by `SessionLaws.CompleteOnlyCompletes` |
| `SendPath.PullInv` | mod_http3/src/h3_session.c:362-401 | so does every call of the data reader, also the one that parks the stream |
| `SendPath.SwallowInv` | mod_http3/src/h3_stream.c:104-110 | so does swallowing the bytes of a stream without a handle |
| `SendPath.BreakInv` | mod_http3/src/h3_stream.c:116-122 | so does dropping the rest of a broken stream |
| `SendPath.TakeInv` | mod_http3/src/h3_stream.c:123-124 | so does a write QUIC takes in full |
| `SendPath.BlockInv` | mod_http3/src/h3_stream.c:123-135 | so does a write that blocks half way |
| `SendPath.UnflowInv` | mod_http3/src/h3_stream.c:55-76 | so does unblocking |
| `SendPath.CancelInv` | mod_http3/src/h3_callbacks.c:193-242 | so do cancel and close |
| `SendPath.CleanInv` | mod_http3/src/h3_session.c:342-360 | so does cleanup of a cancelled response |
| `SendPath.AdvanceLeavesWaiting` | mod_http3/src/h3_stream.c:107-124 | however many offered bytes a turn writes off, the acknowledgement it causes leaves the chunk list well formed and every waiting chunk untouched |
| `SendPath.AdvanceReleases` | mod_http3/src/h3_stream.c:107-124 | the body bytes a turn writes off are the next stretch of what the worker appended |
| `SendPath.AcceptedIsPrefix` | mod_http3/src/h3_stream.c:83-136 | on a stream that is not broken, dropped nothing and is not cleaned up, the invariants mean that QUIC accepted a prefix of what was appended; once concluded it is all of it exactly if nothing waits in the queue, and nothing does unless the reader was told of the end because the response was cancelled |
| `SendPath.CancelledEndsShort` | mod_http3/src/h3_session.c:362-375 | a response cancelled with bytes waiting is ended without them and its stream concluded short |
| `SendPath.DropThenWriteSkips` | mod_http3/src/h3_stream.c:104-124 | bytes dropped for want of a handle leave a gap if the stream then gets one again and goes on writing |
| `SendPath.ThreePlaces` | mod_http3/src/h3_session.c:204-273 | every appended byte is released, with nghttp3 or waiting, in that order; total = released + buffered, within the bound |
| `SendPath.TurnShrinks` | mod_http3/src/h3_stream.c:83-136 | every turn sends or drops bytes, finishes a fin or blocks the stream, and gives the reader nothing more to do |
| `SendPath.PullShrinks` | mod_http3/src/h3_session.c:362-401 | every call of the data reader takes a chunk, parks or ends |
| `SendPath.QuietMeansDrained` | mod_http3/src/h3_stream.c:94-97 | when nghttp3 has nothing to do on a submitted, uncancelled stream that is not blocked, its queue is empty, its producer has room, and a complete response has been concluded |
| `SendPath.BlockedProducerHasConsumerWork` | mod_http3/src/h3_session.c:207-215 | a full queue means nghttp3 still has body bytes to send or chunks to pull |
| `SessionSafety.StepKeeps` | mod_http3/include/h3_session.h:38-119 | every step of either thread, in any state in order, leads to a state in order |
| `SessionSafety.WorkerMemoryIsAlive` | mod_http3/src/h3_request.c:257-408 | in every reachable state, a worker that can take a step finds the session alive, its stream's pool alive and tracked, and no other worker on that stream |
| `SessionSafety.NoUseAfterFree` | mod_http3/src/h3_stream.c:338-368 | over whole runs: after a stream is reclaimed no worker step touches it, and after the session is destroyed no worker takes a step |
| `SessionSafety.FreedOnlyWhenUnused` | mod_http3/src/h3_threads.c:103-123 | a stream is reclaimed only when no worker can come back to it, and the session destroyed only when there is no task and no dispatch under way |
| `SessionSafety.ActiveTasksExact` | mod_http3/src/h3_request.c:461-469 | active_tasks is always the number of tasks queued or running plus the one being handed over |
| `SessionSafety.HandleInOnePlace` | mod_http3/src/h3_session.c:173-193 | every QUIC stream handle issued is held, queued, freed, or was lost to a repeated stream id, exactly one of these and exactly once |
| `SessionSafety.LosesExactly` | mod_http3/src/h3_stream.c:150-160 | a step loses a handle exactly when it is a stream coming again under an id whose entry still has a handle, and it loses that one |
| `SessionSafety.NothingLostExactly` | mod_http3/src/h3_stream.c:150-160 | over any run, every handle is held, queued or freed if and only if no such step was in it |
| `SessionSafety.HeldHandleIsLive` | mod_http3/src/h3_callbacks.c:193-242 | a handle a stream still has is not queued, not freed, not lost and not another stream's, so no write or read uses a handle after it was queued |
| `SessionSafety.SubmittedAtMostOnce` | mod_http3/src/h3_request.c:197-229 | across all workers and failures nghttp3 is asked to submit a response at most once per stream |
| `SessionSafety.BlockedCountExact` | mod_http3/src/h3_stream.c:55-76 | blocked_streams is the number of flagged streams, and a flag is nghttp3's blocked state wherever both sides know the stream |
| `SessionSafety.TurnFreesOnlyPulled` | mod_http3/src/h3_stream.c:104-124 | in every reachable state a turn of the send loop acknowledges no more than was pulled: the list stays well formed and no waiting chunk is freed or shortened |
| `SessionSafety.OfferedBytesAreLive` | mod_http3/src/h3_stream.c:98-124 | in every reachable state, what a turn offers to QUIC lies in chunks still in the list: the body bytes nghttp3 holds are exactly the pulled, unacknowledged ones |
| `SessionSafety.ResponseInOrder` | mod_http3/src/h3_stream.c:83-136 | in every interleaving QUIC has accepted a prefix of the appended bytes of an uncancelled, unbroken stream, and all of them once it is concluded |
| `SessionSafety.ResumeNeverLost` | mod_http3/src/h3_session.c:259-293 | on a live connection a parked, uncancelled reader has nothing waiting and its response is not complete |
| `SessionSafety.ResponseConserved` | mod_http3/src/h3_session.c:204-321 | up to cleanup, appended = released + with nghttp3 + waiting as byte strings, the buffered count is exact and bounded, and a full queue leaves the consumer work |
| `SessionLaws.StepLaw` | mod_http3/include/h3_session.h:38-119 | for every step and every stream, which flags, counters, handles, queue flags and appended bytes change and to what: each turns exactly on the steps named for it, and no other step touches it |
| `SessionLaws.AppendStoresFront` | mod_http3/src/h3_session.c:222-273 | one locked section of an append on a live stream stores the first min(rest, room, 4096) bytes of the rest, at least one, behind the others; without memory, or if the length would wrap, it stores nothing and cancels; nothing else changes |
| `SessionLaws.CompleteOnlyCompletes` | mod_http3/src/h3_session.c:278-294 | completing a response leaves every other field of its queue and its history as they were, cancels nothing, and brings a waiting reader back |
| `SessionLaws.SetupFailsReleases` | mod_http3/src/h3_request.c:269-323 | a worker that cannot set up its request gives the stream back as it was before the reservation: it can be dispatched again and cannot be reclaimed as served |
| `SessionLaws.SessionLaw` | mod_http3/include/h3_session.h:38-74 | aborted, dead and destroyed turn on exactly one step each, and only an accepted stream adds an entry |
| `SessionLaws.NewStream` | mod_http3/src/h3_stream.c:161-176 | a stream just tracked is open, empty, undispatched, with its handle and the configured limit |
| `SessionLaws.StreamIds` | mod_http3/include/h3.h:78-79 | the two id tests give the four kinds of section 2.1 of RFC 9000 |
| `SessionLaws.TurnMoves` | mod_http3/src/h3_stream.c:98-135 | a turn takes exactly the offered bytes off nghttp3's backlog, or the accepted ones if the write blocked; the accepted ones are on the wire exactly if the stream has a handle; fin, conclusion and the broken, blocked and swallowed marks each follow exactly |
| `SessionLaws.PullMoves` | mod_http3/src/h3_session.c:362-401 | a call of the data reader hands over the next chunks whole, as many as there is room for, and ends exactly with the last of a complete response; cancelled it only ends, and with nothing to give and more to come it only parks |
| `SessionLaws.FramedBytes` | mod_http3/src/h3_session.c:376-386 | what nghttp3 has to send for them is the bytes of those chunks, in order, behind what it had |
| `SessionLaws.SubmitAdds` | mod_http3/src/h3_request.c:212-217 | a response nghttp3 takes on gets a reader and its header block behind what is queued |
| `SessionLaws.OwnAdds` | mod_http3/src/h3_io.c:368-386 | frames of nghttp3's own go behind what is queued and touch nothing else |
| `SessionHistory.FlagsBecause` | mod_http3/include/h3_session.h:76-119 | in every run each flag of each stream holds if and only if the run had a step that sets it; so a response is cancelled exactly if nghttp3 refused it, an append found no memory or would wrap, the peer stopped or reset it, it was closed, or the session was destroyed with it |
| `SessionHistory.ServedAfterCompleting` | mod_http3/src/h3_request.c:389-406 | whenever a worker reports a stream done, an earlier step had completed that stream's response |
| `SessionHistory.ReservedBecause` | mod_http3/src/h3_stream.c:228-276 | in the code's runs a request is handed to a worker only after its headers and its body have ended |
| `SessionHistory.ReclaimedBecause` | mod_http3/src/h3_stream.c:345-359 | a reclaimed stream is a client's request stream that was closed, has no handle, and whose worker had completed the response and reported it |
| `SessionHistory.AppendsInOrder` | mod_http3/src/h3_session.c:204-273 | in any run, a worker that always passes the rest of a body appends a prefix of that body |
| `SessionHistory.EndsWhole` | mod_http3/src/h3_session.c:278-400 | and if it completes the response only when it is through, an end that is read, sent or concluded without a cancellation means the whole body |
| `SessionHistory.DeliveredWhole` | mod_http3/src/h3_stream.c:78-148 | from the worker's body to QUIC's log: whatever the interleaving, chunking and partial writes, QUIC took a prefix of the worker's body in order, and all of it once the stream was concluded, unless it was cancelled before its end was read |
| `SessionExample.ServedWhole` | mod_http3/src/h3_request.c:257-470 | for every body of one chunk some run takes in a request, dispatches it, hands exactly those bytes to QUIC and concludes the stream |
| `SessionExample.ReclaimedAfterwards` | mod_http3/src/h3_stream.c:338-368 | and such a stream can be reclaimed once its worker has left and nghttp3 has closed it |
| `SessionRun.SentInOrder` | mod_http3/src/h3_stream.c:78-148 | over any run, from the log of QUIC's own answers: on a stream that no failed write broke off, the body bytes QUIC took are a prefix of what the worker appended, and all of it once the stream was concluded, also after it was closed, reclaimed or destroyed; the stream's id must not have come again, or the response not be cancelled, and a response cancelled before its end was read ends short |
| `SessionRun.UnskippedRun` | mod_http3/src/h3_stream.c:104-124 | over any run in which the stream's id does not come again, bytes are dropped for want of a handle only once it has none for good, and until a write fails what reached QUIC is in order |
| `SessionRun.StepWires` | mod_http3/src/h3_stream.c:98-135 | only a write changes what is on the wire, a complete response grows no more, and only a repeated id gives a stream a handle again |
| `FlushLoop.H3Session.StreamWrite` | mod_http3/src/quic/h3q_stream.c:23-60 | the buffers are offered to QUIC one by one, each only after the one before it was taken whole; what QUIC took is a prefix of the joined buffers; the result is blocked or broken, never both, exactly when it is a proper one, and broken exactly when a write failed for good; the stream is concluded exactly on a fin with everything taken |
| `FlushLoop.H3Session.constructor` | mod_http3/src/h3_session.c:62-96 | a new session is where the empty run leads |
| `FlushLoop.H3Session.Workers` | mod_http3/src/h3_request.c:257-408 | whatever steps workers take while the lock is free, the session stays where its run leads, no dispatch step is among them, and a stream nobody works on is not touched; what each of their steps does is stated by `SessionLaws.StepLaw` |
| `FlushLoop.EarlyExitIsFullScan` | mod_http3/src/h3_stream.c:57-60 | with the counter at zero the full scan would change nothing |
| `FlushLoop.H3Session.UnblockWritable` | mod_http3/src/h3_stream.c:55-76 | with or without the early exit the table ends up as the full scan leaves it: a stream is write-blocked exactly if it was, still has a handle, and has no room |
| `FlushLoop.H3Session.FreeQueued` | mod_http3/src/h3_stream.c:137-147 | every queued handle is freed, one step each |
| `FlushLoop.H3Session.SendOffer` | mod_http3/src/h3_stream.c:98-135 | one turn is one step, with exactly the bytes and the outcome of QUIC's answer; a write is made exactly if the stream has a handle, with the fin exactly when the reader has ended and everything is offered; the stream is flagged exactly if that write blocked; the turn makes progress |
| `FlushLoop.H3Session.Flush` | mod_http3/src/h3_stream.c:78-148 | the loop terminates whatever QUIC accepts and does nothing on a dead connection; the turns in the run are the writes in the log, one for one; it comes back live only when every stream has nothing to pull or offer, apart from those flow control holds back; a stream it leaves write-blocked was so before, with a handle and no room, or was blocked by a write of this flush; queued handles are freed |
| `FlushLoop.FlushLeavesOnlyBlocked` | mod_http3/src/h3_stream.c:78-148 | in any state in order and quiet, as such a flush leaves it, a submitted, uncancelled response that is not write-blocked has been sent as far as it was appended, and concluded exactly if it is complete |
| `DrainScheduler.EveryStreamVisited` | mod_http3/src/h3_stream.c:305-336 | a stream d positions past the cursor is visited within the next d + 1 passes, wherever their budgets run out |
| `DrainScheduler.VisitAtInjective` | mod_http3/src/h3_stream.c:314-315 | one pass visits no stream twice |
| `DrainPass.OnEndHeaders` | mod_http3/src/h3_callbacks.c:121-134 | the callback is one step, or none without a stream; it completes the headers of a request stream, and the body too on a fin |
| `DrainPass.OnStopSending` | mod_http3/src/h3_callbacks.c:193-212 | the callback is one step, or none without a stream: response cancelled, handle queued once and let go, stream done |
| `DrainPass.OnResetStream` | mod_http3/src/h3_callbacks.c:214-224 | the callback is one step, or none without a stream: response cancelled, stream done, handle kept |
| `DrainPass.OnStreamClose` | mod_http3/src/h3_callbacks.c:226-242 | the callback is one step, or none without a stream: response cancelled, nghttp3 forgets the stream, handle queued once and let go |
| `DrainPass.FeedStreamFin` | mod_http3/src/h3_stream.c:187-195 | the body is complete afterwards, whatever callbacks nghttp3 makes and whether or not it fails |
| `DrainPass.DrainOne` | mod_http3/src/h3_stream.c:197-277 | every read is of this stream, within its room, charged to both budgets for exactly what it brought, and fed to nghttp3 byte for byte; it stops only when the receive side is over, a budget is spent, the stream is done or QUIC has no more; a stream finished both ways that nghttp3 knows loses its handle, and a failed feed leaves the stream done; it reports exactly whether the stream is then bidirectional with its headers and its body complete and not dispatched |
| `DrainPass.VisitOne` | mod_http3/src/h3_stream.c:314-329 | a stream is drained exactly if it is open, has a handle and is the client's, and reported exactly if, on a live connection, it is then bidirectional with its headers and its body complete and not dispatched |
| `DrainPass.VisitStreams` | mod_http3/src/h3_stream.c:305-336 | the visits are the scheduler's, share one budget and each have reads and bytes left; the streams reported are exactly the hits, in order; the cursor moves as the scheduler says |
| `DrainPass.ReclaimStreams` | mod_http3/src/h3_stream.c:338-368 | exactly the client's request streams that are done, without a handle, dispatched and done with by their worker go; the others are untouched |
| `DrainPass.DrainReadyStreams` | mod_http3/src/h3_stream.c:279-374 | the pass is over exactly the streams tracked when it began and is one the record allows; a stream is returned if and only if a visit drained it and left it, on a live connection, a request with all headers and body that nobody has taken; these are distinct, none is reclaimed, and no finished stream is left |
| `DrainRecord.PassBudgets` | mod_http3/src/h3_stream.c:305-336 | any such pass makes at most 256 reads of at most 1 MiB in all, and nghttp3 is fed exactly what was read |
| `DrainRecord.HitsDistinct` | mod_http3/src/h3_stream.c:325-329 | no stream is reported twice in a pass |
| `DrainRecord.FairDrain` | mod_http3/src/h3_stream.c:305-336 | among any n chained passes over the same n streams on a live connection, every stream is come to with reads and bytes left; if it is an open client stream then, it is drained, and reported if it is complete |
| `GoAway.NoticeOnceBeforeShutdown` | mod_http3/src/h3_io.c:365-389 | over every run the GOAWAY notice and the final shutdown are sent at most once, and the shutdown never before the notice |
| `GoAway.AbortedIsAbsorbing` | mod_http3/src/h3_io.c:360-363 | no pass over an aborted session accepts, drains, dispatches or sends |
| `GoAway.DeadlineIsFixed` | mod_http3/src/h3_io.c:375-379 | the grace deadline never moves once set |
| `GoAway.AbortsAtDeadline` | mod_http3/src/h3_io.c:375-388 | whatever passes come between, the first shutdown pass that reads the deadline or later leaves the session aborted |
| `GoAway.ShutdownExactly` | mod_http3/src/h3_io.c:380-388 | a shutdown pass on a live session sends the final shutdown exactly when the connection is drained or the deadline has come |
| `GoAway.PassIs` | mod_http3/src/h3_io.c:353-447 | a whole pass: its events in order, the three-second deadline it sets, and the exact conditions under which it aborts the session |
| `StreamIntake.Find` | mod_http3/src/h3_stream.c:46-53 | finds the tracked entry with this id exactly if there is one |
| `StreamIntake.TrackStream` | mod_http3/src/h3_stream.c:150-177 | an id in the table gets the new handle in place of the one it had; any other gets a new entry exactly if there is memory |
| `StreamIntake.AcceptOne` | mod_http3/src/h3_io.c:404-421 | for any id: one step, after which the stream's entry has the handle, or it has a new entry, or its handle is freed at once; a handle it replaces is lost |
| `StreamIntake.RepeatLosesExactly` | mod_http3/src/h3_stream.c:155-160 | a stream costs a handle exactly when its id is tracked and the entry still has one, and that is the handle lost |
| `StreamIntake.TakesExactly` | mod_http3/src/h3_io.c:404-421 | an impossible id, or a new one without memory, has its handle freed and changes no entry; a new one gets the entry behind the others; a known one gets the handle in its own |
| `StreamIntake.NewIdsLoseNothing` | mod_http3/src/h3_stream.c:155-177 | streams whose ids are new to the table and to each other lose nothing |
| `RequestDispatch.ProcessRequest` | mod_http3/src/h3_request.c:410-470 | whatever workers do in between, the new one included: the steps of the dispatch are exactly reserve, count, push when there is memory and a slot, and otherwise the reservation and the count are taken back; a stream already reserved is left alone, and on a whole request every reservation of the run stays one of a whole request |
| `ServicePass.QueueOwnFrame` | mod_http3/src/h3_io.c:368-386 | a call that makes nghttp3 queue a frame of its own is in the pass's log, and touches nothing but what is to be sent |
| `ServicePass.Wind` | mod_http3/src/h3_io.c:365-389 | the shutdown part of a pass, with workers moving where the lock is free: notice, flush, deadline, and the final shutdown with an abort exactly when drained or expired |
| `StreamIntake.AcceptStreams` | mod_http3/src/h3_io.c:404-421 | for any ids QUIC brings, with workers moving in between, table, freed and lost handles are exactly those of taking the streams in one after the other; other entries are left to the workers, and new ones are as new |
| `RequestDispatch.DispatchAll` | mod_http3/src/h3_io.c:436-440 | with workers moving in between, every completed request is dispatched exactly once, in order, each ending as memory and the thread pool allow; none is found taken, and whole requests keep the run's reservations those of whole requests |
| `ServicePass.ServiceSession` | mod_http3/src/h3_io.c:353-447 | the whole pass, mixed with any worker steps, is a run of the transition system and follows the GOAWAY control flow; it does nothing once aborted; exactly a pass that gets to read takes in the streams, whatever their ids, drains them as recorded and dispatches exactly what it found complete; at its end a live connection has nothing to send that flow control does not hold back |
| `ServicePass.ServicePasses` | mod_http3/src/h3_threads.c:95-101 | the same for any number of passes: the control flow is that of the inputs, the drains link up through the cursor, and dispatches and reads are those of the passes |
| `ServicePass.FairOverPasses` | mod_http3/src/h3_stream.c:305-336 | the fairness of drains holds in any stretch of those passes |
| `ServicePass.Retire` | mod_http3/src/h3_threads.c:103-111 | a session is destroyed exactly when it is aborted, its shutdown is done and no worker is left |
| `ServicePass.SessionLife` | mod_http3/src/h3_threads.c:95-126 | from creation through any passes to its end a session is in a reachable state, with a control flow the GOAWAY rules allow, and is destroyed only without tasks; every reservation in its run was of a stream with all its headers and body that nobody had taken; on every stream whose id came once and whose writes did not fail, the body bytes QUIC took in all its life are a prefix of what was appended, and all of it once QUIC was asked to conclude it, unless it was cancelled before its end was read |
| `ServicePass.DestroySession` | mod_http3/src/h3_session.c:152-185 | without tasks, destruction frees exactly the queued handles, cleans up every stream in the table and takes nghttp3 away; it is one step of the transition system |
| `Connections.SwapRemoveTakesOne` | mod_http3/src/h3_io.c:223-227 | swap-with-last removal takes out exactly the removed entry and keeps the others once each |
| `Connections.SwapRemoveFrom` | mod_http3/src/h3_io.c:223-227 | the entries before the hole keep their places, and those from the hole on lose just the removed one |
| `Connections.Io.RemovePending` | mod_http3/src/h3_io.c:216-228 | the entry goes, the last one takes its place, and its connection is freed exactly if asked |
| `Connections.Io.AcceptAll` | mod_http3/src/h3_threads.c:72-92 | the connections let in are exactly those that can be prepared while there is room, first come first served, each with its time; exactly the others are freed at once; each is in one place, and active plus pending never exceed H3MaxConnections |
| `Connections.AdmittedExactly` | mod_http3/src/h3_threads.c:72-92 | a connection is let in exactly when it can be prepared and those before it have left room, and refused exactly when it is not let in |
| `Connections.Io.Prepare` | mod_http3/src/h3_io.c:337-351 | a prepared connection is appended to the pending list with its time, one that cannot be prepared is not |
| `Connections.Io.ProgressOne` | mod_http3/src/h3_io.c:289-334 | a handshake past its timeout or with a closed connection is freed; one in time, open and done gets a session, or is freed if it cannot have one; any other is left alone |
| `Connections.Io.Spawn` | mod_http3/src/h3_io.c:230-278 | through every failure the connection is freed once, and otherwise it gets one active session; the counters follow |
| `Connections.Io.ProgressHandshakes` | mod_http3/src/h3_io.c:280-335 | every pending entry is examined exactly once, also those a removal moves; exactly those neither timed out, closed nor finished stay, exactly the finished and open ones that can be served get a session, exactly the others are freed; ownership and the limit are kept |
| `Connections.Io.ServeOne` | mod_http3/src/h3_threads.c:95-127 | a session gets one pass and is destroyed exactly when it is aborted, its shutdown is done and no task is left; otherwise it stays in place |
| `Connections.Io.ServeAll` | mod_http3/src/h3_threads.c:95-127 | every active session gets exactly one pass per round, also those a removal moves; exactly those that are then aborted, shut down and without tasks are freed |
| `Connections.Io.DropPending` | mod_http3/src/h3_threads.c:128-131 | the exit frees every pending connection |
| `Connections.Io.Round` | mod_http3/src/h3_threads.c:70-127 | a round, on any answers: while the server accepts it takes in what QUIC offers and looks at every handshake, then serves every session, the new ones included, with the table afterwards as these say |
| `Connections.LateIsFreed` | mod_http3/src/h3_io.c:288-334 | in such a round a handshake, old or just accepted, is freed if it is late or closed, or done and not servable; it has had its first pass if it is in time, open, done and servable; and it waits exactly if it is in time, open and not done |
| `Connections.ServedEveryRound` | mod_http3/src/h3_threads.c:95-127 | every session is served in every round; it is freed in the first that finds it, after its pass, aborted, shut down and without tasks, and until then stays, and stays aborted once it is |
| `Connections.StoppedRound` | mod_http3/src/h3_threads.c:70-127 | once the server stops, a round accepts nothing and leaves every handshake as it is, while every session is still served |
| `Connections.Io.EventThread` | mod_http3/src/h3_threads.c:34-134 | on any answers it goes round exactly as long as the server runs or a session is left, takes from QUIC exactly what running rounds are offered, and exits exactly when it finds the server stopped and no session; then every connection it ever accepted has been freed exactly once, through every failure, timeout, close and abort |
| `RequestBody.Doubled` | mod_http3/src/h3_callbacks.c:162-166 | the doubling loop reaches what is needed, stays below twice that, and cannot wrap a size_t |
| `RequestBody.BodyBuffer.Grow` | mod_http3/src/h3_callbacks.c:160-178 | the new buffer holds what is needed despite the clamp, keeps the bytes, and copies each stored byte once |
| `RequestBody.BodyBuffer.OnRecvData` | mod_http3/src/h3_callbacks.c:136-182 | a frame is kept whole or the body is flagged and nothing is kept from then on; the capacity suffices and fewer than two bytes were ever copied per byte stored |
| `RequestBody.BodyBuffer.ReceiveBody` | mod_http3/src/h3_callbacks.c:136-182 | the same for any sequence of frames |
| `RequestBody.ReceiveAllIs` | mod_http3/src/h3_callbacks.c:143-159 | what is kept is the longest run of frames within the limit, and the flag is set exactly when a frame did not fit |
| `RequestBody.WithinLimitKeepsAll` | mod_http3/src/h3_callbacks.c:143-182 | within the limit every byte of every frame is kept in order; past it the body is flagged |
| `RequestBody.BodyBuffer.Read` | mod_http3/src/h3_filter.c:82-133 | a byte count is respected and without one everything unread is given; a line ends with its first newline; a speculative read takes nothing; the end is marked exactly when nothing was unread or a read that takes took the last byte; other modes get nothing |
| `RequestBody.BodyBuffer.ReadMany` | mod_http3/src/h3_filter.c:82-133 | the same for every reply to any sequence of requests, each for what was unread when it came |
| `RequestBody.ReplyIs` | mod_http3/src/h3_filter.c:86-131 | the reply function meets the same law on all inputs |
| `RequestBody.LineLengthIs` | mod_http3/src/h3_filter.c:109-116 | a line read ends with the first newline, or takes everything when there is none |
| `RequestBody.DeliveredIs` | mod_http3/src/h3_filter.c:100-131 | the consuming reads join up to exactly the bytes passed over |
| `RequestBody.EnoughReads` | mod_http3/src/h3_filter.c:100-131 | every consuming read makes progress |
| `RequestBody.BodyRoundTrip` | mod_http3/src/h3_filter.c:82-133 | for any frames within the limit and any requests the consuming reads deliver a prefix of the frames' bytes, the end is marked only when all of it has been delivered, and enough reads deliver it all |
| `RequestBody.SpeculativeShowsNext` | mod_http3/src/h3_filter.c:103-131 | a speculative read consumes nothing and shows what the same read would deliver |
| `ResponseCapture.CaptureIsReceive` | mod_http3/src/h3_filter.c:152-157 | the overflow-safe form of the limit test keeps the same bytes as the request body's |
| `ResponseCapture.CaptureBuffer.CaptureBucket` | mod_http3/src/h3_filter.c:135-177 | a bucket is kept whole or the response is flagged too large; capacity and copies as for the request body, without the clamp |
| `ResponseCapture.CaptureBuffer.CaptureAll` | mod_http3/src/h3_filter.c:135-177 | for any buckets the buffer holds the longest run of them within the limit, with fewer than two bytes copied per byte stored |
| `Datagrams.DatagramQueue.PushTail` | mod_http3/src/quic/detail/h3q_addr.c:94-102 | a datagram goes behind the others and the list stays well formed |
| `Datagrams.DatagramQueue.DropHead` | mod_http3/src/quic/detail/h3q_addr.c:45-54 | the oldest datagram goes and its node is freed, once |
| `Datagrams.DatagramQueue.Clear` | mod_http3/src/quic/detail/h3q_addr.c:56-67 | every node is freed exactly once |
| `Datagrams.Engine.Fill` | mod_http3/src/quic/detail/h3q_addr.c:69-105 | a batch is queued whole and in order exactly when every copy succeeds and no datagram is empty, and not at all otherwise |
| `Datagrams.Engine.Pop` | mod_http3/src/quic/detail/h3q_addr.c:107-132 | the oldest datagram goes up with its addresses, or is dropped exactly when it is larger than the caller's buffer |
| `Datagrams.Engine.RecvMmsg` | mod_http3/src/quic/detail/h3q_addr.c:146-191 | the oldest open datagram goes up exactly when it fits and is dropped exactly when it does not; a batch is fetched only when none is open, and then its first datagram goes up or the whole batch is lost; the sender remembered is that datagram's if and only if message and datagram agree on having an address |
| `Datagrams.ReceiveOpen` | mod_http3/src/quic/detail/h3q_addr.c:107-132 | with a datagram open nothing is fetched, and the oldest goes up if it fits the caller's buffer and is dropped if not |
| `Datagrams.FetchArrives` | mod_http3/src/quic/detail/h3q_addr.c:69-105 | with none open the socket's messages arrive as they are, bytes, sender and local address |
| `Datagrams.FetchFates` | mod_http3/src/quic/detail/h3q_addr.c:69-191 | the first goes up if each could be copied and none was empty, otherwise the whole batch is lost |
| `Datagrams.UpInArrivalOrder` | mod_http3/src/quic/detail/h3q_addr.c:146-191 | datagrams go up in arrival order, each at most once, and exactly those not lost; a loss is an oversize datagram or a whole batch with a failed copy or an empty datagram |
| `Datagrams.SenderRememberedExactly` | mod_http3/src/quic/detail/h3q_addr.c:122-187 | what is remembered after a hand-up is the sender if and only if the message has a place for the address exactly when the datagram carries one, or the address lost or left over is unspecified |
| `Datagrams.LeftoverAddress` | mod_http3/src/quic/detail/h3q_addr.c:107-191 | a run in which it is not: two datagrams fetched without a place for the address, and the second handed up with what the next message's place held before |
| `Datagrams.BatchPlaces` | mod_http3/src/quic/detail/h3q_addr.c:83-85 | a fetched datagram carries an address exactly if its message had a place for one |
| `Datagrams.FetchedAgree` | mod_http3/src/quic/detail/h3q_addr.c:174-187 | a datagram handed up straight from the socket always agrees with its message |
| `Datagrams.PlacedAlways` | mod_http3/src/quic/detail/h3q_addr.c:146-191 | a caller whose messages all have a place for the address gets the right sender at every hand-up |
| `Datagrams.Engine.RecvMany` | mod_http3/src/quic/detail/h3q_addr.c:146-191 | so for any number of receives: what is remembered hand-up by hand-up are the senders of what went up |
| `Datagrams.Engine.NewPendingConn` | mod_http3/src/quic/detail/h3q_addr.c:208-223 | a new connection records the remembered sender exactly when one is known, there is an index and it can be stored, and is refused exactly when it cannot be stored |
| `Datagrams.Engine.RecvAndAccept` | mod_http3/src/quic/detail/h3q_addr.c:146-223 | a connection created during a hand-up records the sender of that datagram whenever message and datagram agree, the sender is known and it can be stored, and a right record means they agree |

## Left out

- The insides of OpenSSL and nghttp3, TLS, ALPN, sockets, the wakeup pair and poll: environments, with the contracts listed above.
- Directive parsing, configuration merging, httpd hooks, virtual hosts, synthetic connections, header lists and the status page: flat glue that would only add easy members.
- The bucket-brigade loop of the output filter and its error responses: it depends on httpd's filters.
- A worker completes its response also when its timed wait failed and the response is short of its body; such a run is outside the hypothesis `Finishes`, and what it sends is what was appended.
- The worker's own code (`stream_worker`, `submit_response_nva`, `h3_stream_response_complete`) is modelled as steps of `Session`, not as methods; its httpd work between the steps is not modelled.
- The stream table is a sequence in a fixed order, with reclaimed streams as entries no longer tracked; the hash table's own iteration order and the guard against a corrupted hash are not modelled.
- The control streams a session opens for itself: tracking them is the same step with bytes already queued, and their creation is seen only as a spawn that fails or succeeds.
- In `Connections` a session is seen through `aborted`, its shutdown and its task count; its inside is the other modules' subject.
- ResponseList.StreamResponse.Append: the number of times the timed wait may return is a parameter, so that the method terminates; what is proved holds for every value of it. The argument check for a null stream or buffer is not modelled.
- Connections.Io.EventThread: the answers of the rounds are a finite list for the same reason; what is proved holds for every list, whether or not the thread exits within it. Waiting for events and pumping the QUIC engine are not modelled.
- Condition broadcasts, wakeups of the event thread and log lines: they change no modelled state, and the waits they end are free choices.
- Handles of streams still tracked when a session is destroyed, and handles lost to a repeated id: the source frees neither, so "at most once" is what is claimed for stream handles.
- SessionRun.SentInOrder: the condition that the id came once goes one way only. `SendPath.DropThenWriteSkips` shows the gap it shuts out; whether a stream that comes again really has one depends on the bytes themselves.
- Statistics counters other than the session count: totals that nothing depends on.
