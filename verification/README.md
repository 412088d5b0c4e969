# pyvoy: the protocols between Envoy's threads and Python's threads

pyvoy runs WSGI and ASGI applications inside Envoy. Envoy calls its filters on its own
event-driven threads, the application runs on Python threads, and everything that passes
between the two goes through small concurrent protocols: a closable queue with scheduled
callbacks, wakeups that are coalesced or parked, an elastic thread pool, stream readers that
carry partial input over, and message state machines that feed the response. This project
models those protocols and proves what every interleaving of them keeps.

Each component comes in two linked parts.

- The code that updates objects in place is a class with the same fields, branches and loops. Its methods
  are proved against specification functions on values.
- Where threads interleave, a step relation (`State`, `Action`, `Enabled`, `Apply`, `Run`) lets
  every thread take its steps in any order. Its steps are made of the functions the methods are
  proved against. Where a method spans several steps, a contract or a lemma ties the whole to
  them: `Pool.Execute` returns the run it is, `LifeStartsServed` does the same for
  `Pool.RunWorker`, and `ReadWebSocket` gets where `AfterRounds` says, which `RoundsAreARun` shows
  to be a run. The main results are lemmas over all action lists `CanRun` admits from the start
  state. What goes out is compared with what came in: the records `Progress`, `Taken`, `Said` and
  `Upstream` are kept from the messages and events themselves, not from what the modelled code
  made of them.

| file | what it models |
|---|---|
| `Basics.dfy` | options, bytes, joining and summing lists |
| `EventBridge.dfy` | the mutex-guarded event bridge, refining a queue that can be shut for good |
| `Delivery.dfy` | bridge, scheduled commits and watermark together, over every interleaving |
| `WorkQueue.dfy` | the queue of the WSGI workers: newest idle thread first, park and unpark |
| `EventLoop.dfy` | the coalescing waker and the batching drainer of an event loop |
| `BlockingPool.dfy` | the elastic pool and its shutdown |
| `Envoy.dfy` | reading and draining the body slices Envoy holds |
| `RequestInput.dfy` | `wsgi.input`: reads, lines and iteration against an ideal reader |
| `HttpCalls.dfy` | what a legal sequence of response calls is (section 8.1 of RFC 9113) |
| `WsgiResponse.dfy` | `start_response`, `write`, yields and trailers, to Envoy calls (PEP 3333) |
| `AsgiResponse.dfy` | the ASGI send callable and the response filter |
| `AsgiReceive.dfy` | the ASGI receive callable and the request filter |
| `EnvoyStream.dfy` | the stream under a WebSocket decoder |
| `WebSocketReceive.dfy` | the WebSocket read loop over an abstract decoder |
| `WebSocket.dfy` | the WebSocket send callable and the filter's send events |
| `WebSocketRun.dfy` | application, bridges, commits and filter of a WebSocket, step by step |
| `WebSocketResult.dfy` | what holds in every run of them |
| `ResponseContent.dfy` | the async iterator over an upstream response |

Some results are about what the code does not do.

- `WsgiResponses.LegalResponse`: trailers sent before any `start_response` make the calls illegal; otherwise
  they are legal. `BareTrailersAreIllegal` builds such a run.
- `WsgiResponses.FlowControl`: a worker that waits for a written signal gets one exactly if the yields made
  after the response was closed do not outnumber the `write()` calls. `YieldAfterTrailersStalls`
  builds a run after which it waits whatever happens, until the stream is complete.
- `AsgiResponses.CompletesExactly`: a response the sender takes to be complete has ended unless the
  last announced trailers could not be converted. `LostTrailersNeverEnd` builds a run after which
  nothing ends it.
- `BlockingPools.ShutdownCompletes` and `OverlapOutlivesShutdown`: `shutdown` waits for every job if and
  only if no submission has passed the flag check without being counted yet. The order in
  `Executor::shutdown` makes sure of it.

## Model

| member | source | states |
|---|---|---|
| `EventBridges.EventBridge.Send` | src/eventbridge.rs:40-60 | appends to the queue the four shapes stand for, or hands the event back once closed |
| `EventBridges.EventBridge.IsEmpty` | src/eventbridge.rs:62-65 | true exactly if nothing waits, closed or not |
| `EventBridges.EventBridge.Drain` | src/eventbridge.rs:71-89 | the locked part of `process`: takes everything in order, and a closed bridge stays closed |
| `EventBridges.EventBridge.Process` | src/eventbridge.rs:67-89 | handles exactly the events that waited, in order, whatever is sent or closed while they are handled; all of that is on the bridge afterwards |
| `EventBridges.EventBridge.Get` | src/eventbridge.rs:91-109 | takes the oldest event, and never leaves an empty list of several behind |
| `EventBridges.EventBridge.Close` | src/eventbridge.rs:111-115 | shuts the bridge and drops exactly what waited |
| `EventBridges.ShutForGood` | src/eventbridge.rs:73-76 | no sequence of sends and closes reopens a closed bridge |
| `Delivery.RunFromStart` | src/asgi/filter.rs:200-228 | in every run of sends, commits, callbacks, watermarks and the end of the stream: every accepted event is handled, drained, waiting or dropped, in order, and none waits without a commit on its way or a risen watermark |
| `Delivery.NoDrainAboveWatermark` | src/asgi/filter.rs:205-221 | until the watermark falls, nothing beyond the batch already drained is handled, and nothing waiting leaves an open bridge |
| `Delivery.ClosedForGood` | src/asgi/filter.rs:175-178 | after the end of the stream no event is accepted again |
| `Delivery.EveryEventSettles` | src/asgi/filter.rs:200-228 | finishing steps decrease a measure, and one is possible while an accepted event is neither handled nor dropped |
| `WorkQueues.Parker.Notify` | src/wsgi/queue.rs:31-36 | sets the flag and leaves a park token |
| `WorkQueues.WorkQueue.Push` | src/wsgi/queue.rs:56-66 | queues the item last and takes the most recently idle thread, and only it, off the list to notify it |
| `WorkQueues.WorkQueue.TryPop` | src/wsgi/queue.rs:70-91 | one locked pass of `pop`: the oldest item, the end if closed and empty, or listed as idle with the flag cleared |
| `WorkQueues.WorkQueue.Close` | src/wsgi/queue.rs:93-103 | closes, empties the idle list and notifies every thread on it, leaving the items |
| `WorkQueues.StepKeepsInv` | src/wsgi/queue.rs:57-103 | every step of notifiers and workers, with late unparks and spurious returns, keeps the invariant of the idle list, the flags and the tokens |
| `WorkQueues.PushTakesOff` | src/wsgi/queue.rs:57-66 | a push with a thread listed puts one more thread on its way back to the queue |
| `WorkQueues.PushWakesNewest` | src/wsgi/queue.rs:57-66 | in every run a push owes a notification to the thread that became idle last, and to no other |
| `WorkQueues.NoLostWakeup` | src/wsgi/queue.rs:57-103 | in every run: items come out once each in push order, the last listed thread is the newest, while a thread is listed the items number at most the threads on their way back, and a parked thread whose flag is set has a token or is owed an unpark |
| `WorkQueues.QuietMeansServed` | src/wsgi/queue.rs:70-91 | with nothing left to run, a thread still waiting means the queue is open and empty |
| `WorkQueues.ClosedStepProgresses` | src/wsgi/queue.rs:86-103 | after the close every step of a worker or notifier decreases a measure |
| `WorkQueues.ClosedRun` | src/wsgi/queue.rs:86-103 | after the close no thread is listed again, no worker is told there is no more while items pushed before are left, and worker and notifier steps stay under a measure, plus two for each later push and one for each spurious return |
| `WorkQueues.CloseDrains` | src/wsgi/queue.rs:93-103 | closed at any moment, whatever is pushed or wakes spuriously later: a worker is told there is no more only after everything pushed before was taken, and a run can only stop once every worker was told |
| `EventLoops.WakerSocket.Write` | src/asgi/shared/eventloop.rs:156-161 | adds a wakeup byte, or nothing if the buffer is full |
| `EventLoops.WakerSocket.Read` | src/asgi/shared/eventloop.rs:182-190 | takes up to one buffer of bytes, or reports that there are none |
| `EventLoops.LoopHandle.Dispatch` | src/asgi/shared/eventloop.rs:144-166 | queues the task last and wakes the loop, by a byte or a message, only if no wakeup is pending |
| `EventLoops.LoopHandle.Drain` | src/asgi/shared/eventloop.rs:179-216 | empties the socket if there is one, takes at most a batch in order, keeps the wakeup pending and reschedules exactly if tasks are left, and runs the batch |
| `EventLoops.NoTaskStranded` | src/asgi/shared/eventloop.rs:146-216 | in every run, for every waker, batch size and socket capacity: tasks run once each in dispatch order, waiting tasks have a drain coming even if a write was skipped, and wakeups number at most one more than the times the flag was cleared |
| `EventLoops.EveryTaskRuns` | src/asgi/shared/eventloop.rs:191-214 | from any reachable state every step but a dispatch decreases a measure, and one is possible until every dispatched task has run |
| `EventLoops.TakenByDrain` | src/asgi/shared/eventloop.rs:191-214 | a task with `i` tasks ahead is taken by drain number `i / batchSize + 1`, neither earlier nor later, whatever is dispatched meanwhile |
| `BlockingPools.Pool.Execute` | src/wsgi/pool.rs:85-100 | a submission is a run of the steps below; exactly one worker more holds the job, at most one thread is spawned and only if none waited, and nothing changes after the shutdown flag |
| `BlockingPools.Pool.RunWorker` | src/wsgi/pool.rs:103-134 | starts its first job and those received until shutdown, timeout or panic; the count goes down by one in every case, and the last worker notifies |
| `BlockingPools.LifeStartsServed` | src/wsgi/pool.rs:119-134 | wherever in a run a worker lives its life, it starts exactly the jobs `RunWorker` serves and is gone |
| `BlockingPools.StepKeepsInv` | src/wsgi/pool.rs:72-134 | every step keeps the count and the place of each job |
| `BlockingPools.CountIsExact` | src/wsgi/pool.rs:85-117 | in every run, overlaps and panics included: the count is the spawned workers that have not exited plus those about to be spawned, each job is in one place or was started once, and a thread blocked in `shutdown` with no wakeup due has a worker to wait for |
| `BlockingPools.ClosingStep` | src/wsgi/pool.rs:72-81 | during shutdown every step but a submission or a spurious wakeup decreases a measure; a submission leaves it and a spurious wakeup adds at most three |
| `BlockingPools.ShutdownCompletes` | src/wsgi/pool.rs:72-134 | called with every accepted submission counted, as src/wsgi/python.rs does by joining its workers first, and whatever is submitted or wakes spuriously afterwards: later jobs are refused, the steps are bounded but for spurious wakeups, a run stops only with `shutdown` back, and then every worker has exited and every accepted job was started exactly once |
| `BlockingPools.OthersFinish` | src/wsgi/pool.rs:85-134 | all counted work can finish while an uncounted submission stays where it is |
| `BlockingPools.OverlapOutlivesShutdown` | src/wsgi/pool.rs:72-99 | from every reachable state with an uncounted submission, `shutdown` can be back before its job is started |
| `Envoy.RequestBody.HasRequestBody` | src/envoy.rs:81-92 | true exactly if a byte can be read, empty slices or not |
| `Envoy.RequestBody.ReadRequestBody` | src/envoy.rs:102-144 | returns and drains everything readable in order; the one-slice paths agree with the general one |
| `Envoy.HasNonemptyBuffer` | src/envoy.rs:94-100 | true exactly if the slices hold a byte |
| `Envoy.ExtendFromBuffers` | src/envoy.rs:154-166 | appends the joined slices and counts their bytes |
| `RequestInputs.LineIsUnique` | src/wsgi/python.rs:507-522 | a text starts with at most one line of a given limit |
| `RequestInputs.LineExists` | src/wsgi/filter.rs:452-469 | and with at least one: the one the scan finds |
| `RequestInputs.ScanAppend` | src/wsgi/filter.rs:452-469 | scanning slices one after the other is scanning them joined |
| `RequestInputs.RequestReader.ReadUntilLineOrSize` | src/wsgi/filter.rs:452-469 | over any slicing, moves exactly the bytes up to the first newline or the size to the carry-over |
| `RequestInputs.RequestReader.TakeUpTo` | src/wsgi/filter.rs:358-385 | takes the first bytes of the slices up to a limit, however they are cut |
| `RequestInputs.RequestReader.AnswerRaw` | src/wsgi/filter.rs:355-394 | answers with up to the size asked for, buffered bytes first, and drains exactly those |
| `RequestInputs.RequestReader.CollectAll` | src/wsgi/filter.rs:395-423 | carries everything over, and answers once the request is closed |
| `RequestInputs.RequestReader.AnswerLine` | src/wsgi/filter.rs:424-447 | carries bytes over up to the end of the line, across buffered and received slices, and answers when it is complete or the request closed |
| `RequestInputs.RequestReader.ProcessRead` | src/wsgi/filter.rs:344-450 | takes waiting requests and does nothing more unless there is a byte or the end; replies as specified for the pending kind |
| `RequestInputs.ScanEndsLine` | src/wsgi/filter.rs:452-469 | a stopped scan ends a line at its first newline or size; one that did not stop holds no line end |
| `RequestInputs.ProcessedAnswers` | src/wsgi/filter.rs:350-449 | a reply is what the ideal reader returns, for every body that may follow; what is kept loses nothing |
| `RequestInputs.IterationIsUnique` | src/wsgi/python.rs:529-537 | a body iterates in at most one way |
| `RequestInputs.SplitLines` | src/wsgi/python.rs:553-558 | splits a body into the lines that iterating over it yields |
| `RequestInputs.RequestInput.DoRead` | src/wsgi/python.rs:563-588 | empty once closed; otherwise sends one request, commits if the bridge took it, and returns the reply |
| `RequestInputs.RequestInput.Readlines` | src/wsgi/python.rs:543-559 | the lines of the reply to a read of everything left |
| `RequestInputs.CallbackReplies` | src/wsgi/filter.rs:344-450 | a callback that replies answers the pending read for every body that may result |
| `RequestInputs.StepKeepsInv` | src/wsgi/filter.rs:132-155 | calls, commits, deliveries, callbacks and the end of the stream keep bytes, answers and the place of the read |
| `RequestInputs.ReadsAreIdeal` | src/wsgi/filter.rs:344-469 | in every run: answers are those of the ideal reader over the whole body, every byte that arrived is in the answers, on its way, carried over or in Envoy, in order, and the input closes only once all is delivered |
| `RequestInputs.NoReadIsStuck` | src/wsgi/python.rs:572-585 | with no callback on its way, a reader waits only because more of the body must come |
| `RequestInputs.RepliesAreFull` | src/wsgi/filter.rs:355-447 | in every run a reply gives a limited read all it asks for or all there is, and says that the body is over exactly if it is |
| `RequestInputs.IterationGivesReadlines` | src/wsgi/python.rs:524-559 | the results of iterating to the empty line are the lines `readlines` returns at the same point |
| `WsgiResponses.ResponseSender.Send` | src/wsgi/response.rs:67-145 | the new sender state, event, commit and status for each kind of send, errors included |
| `WsgiResponses.Filter.HandleEvent` | src/wsgi/filter.rs:471-533 | the Envoy calls, written signal and reply for one event |
| `WsgiResponses.Filter.OnScheduledResponse` | src/wsgi/filter.rs:179-190 | drains and renders everything waiting unless the watermark is up |
| `WsgiResponses.Filter.OnBelowWatermark` | src/wsgi/filter.rs:197-203 | schedules one callback exactly when the last watermark falls |
| `WsgiResponses.Filter.OnStreamComplete` | src/wsgi/filter.rs:157-160 | closes the response and its bridge, dropping what waited |
| `WsgiResponses.SendKeepsOutput` | src/wsgi/response.rs:67-145 | whatever is sent, the events accepted so far render to the response those sends amount to, and the sender agrees with them |
| `WsgiResponses.SendKeepsFlow` | src/wsgi/python.rs:392-413 | each event that asks for a signal is accounted for by a write, a wait or a received signal |
| `WsgiResponses.StepKeepsInv` | src/wsgi/python.rs:353-417 | every step of application, worker, commits, callbacks and watermarks keeps the invariant |
| `WsgiResponses.LegalResponse` | src/wsgi/response.rs:67-145 | in every run: one header block, that of the last allowed `start_response`, then data, then one end; the data is a prefix of the bodies sent, and all of them once everything accepted is handled; the trailers are those sent, and there once all is handled; no empty end after the headers; not legal exactly when trailers were sent before any start |
| `WsgiResponses.StatusesAreRight` | src/wsgi/response.rs:67-145 | in every run each send is answered, errors included, as its place among the sends says |
| `WsgiResponses.BareTrailersAreIllegal` | src/wsgi/response.rs:127-140 | a run in which trailers before any start make the calls illegal |
| `WsgiResponses.FinishedCompletes` | src/wsgi/python.rs:367-413 | in every run while the stream lasts: the calls are exactly those of the handled events, a failure is answered once, and when a worker is finished and all is handled the response has ended or the failure was answered |
| `WsgiResponses.FlowControl` | src/wsgi/python.rs:392-413 | in every run: unhandled bodies and unread signals number at most one more than the writes, and a waiting worker has one of them exactly if yields after the close do not outnumber the writes |
| `WsgiResponses.YieldAfterTrailersStalls` | src/wsgi/python.rs:392-413 | trailers followed by a yield leave the worker waiting with nothing outstanding, in every later run until the stream is complete |
| `WsgiResponses.StalledForGood` | src/wsgi/python.rs:392-413 | once a worker waits after the close with nothing outstanding, no call, delivery or watermark brings it a signal |
| `AsgiResponses.SendCallable.Call` | src/asgi/python/mod.rs:510-669 | the new state, event, commit and answer for every message, legal or not, and the close on a rejected send |
| `AsgiResponses.ResponseFilter.HandleEvent` | src/asgi/filter.rs:400-468 | the Envoy calls, kept trailers and resolved future for one event |
| `AsgiResponses.ResponseFilter.OnScheduledResponse` | src/asgi/filter.rs:200-209 | drains and renders everything waiting unless the watermark is up |
| `AsgiResponses.ResponseFilter.OnBelowWatermark` | src/asgi/filter.rs:222-228 | schedules one callback exactly when the last watermark falls |
| `AsgiResponses.ResponseFilter.OnStreamComplete` | src/asgi/filter.rs:175-178 | closes the bridge and fails the futures of what waited |
| `AsgiResponses.EventIsOk` | src/asgi/filter.rs:400-468 | rendering the event of a message carries the response on with the status, headers, body and trailers in the message |
| `AsgiResponses.CallKeepsOutput` | src/asgi/python/mod.rs:510-669 | after every message the sender, the accepted events and the messages so far agree |
| `AsgiResponses.StepKeepsInv` | src/asgi/filter.rs:400-470 | every step keeps the invariant of sender, bridge and output |
| `AsgiResponses.LegalResponse` | src/asgi/python/mod.rs:510-669 | in every run: status and headers of the start message, data that is a prefix of the bodies in the messages sent in order and all of them once everything is handled, one end, nothing after it, no empty end after the headers; trailers only if announced and accepted, those in the messages, joined in order |
| `AsgiResponses.AnswersAreRight` | src/asgi/python/mod.rs:510-669 | in every run each message is answered, errors included, as its place among the messages says |
| `AsgiResponses.FailuresAreAnswered` | src/asgi/filter.rs:456-466 | in every run replies number at most the failures of the application, and exactly those once everything is handled |
| `AsgiResponses.CompletesExactly` | src/asgi/python/mod.rs:560-668 | in every run, once all is handled: the response has begun exactly if a body was sent, and ended exactly if the last message for it was sent and the last trailers were not lost in conversion, with trailers exactly if announced and accepted; after such a loss it has no end at any time |
| `AsgiResponses.LostTrailersNeverEnd` | src/asgi/python/mod.rs:640-644 | a run in which the last trailers are lost, and no later run ends the response |
| `AsgiResponses.HandleKeepsFutures` | src/asgi/python/mod.rs:172-201 | handling an event resolves its future and no other |
| `AsgiResponses.FuturesResolveOnce` | src/asgi/python/mod.rs:732-744 | every send future is resolved at most once, exactly once when nothing is drained or waiting, and fails only after the bridge is closed |
| `AsgiReceives.AnsweredEach` | src/asgi/filter.rs:388-398 | one event for each future, the first with all the bytes |
| `AsgiReceives.RequestFilter.HandleRead` | src/asgi/filter.rs:388-398 | answers every waiting receive if there is a byte or the request is closed, and otherwise touches nothing |
| `AsgiReceives.RequestFilter.OnStreamComplete` | src/asgi/filter.rs:175-178 | closes the bridge and disconnects exactly the receives that waited |
| `AsgiReceives.CallReceive` | src/asgi/python/mod.rs:712-724 | the future waits and a commit follows, or it is dropped |
| `AsgiReceives.ReadKeepsInv` | src/asgi/filter.rs:388-398 | a callback keeps bodies, order and the last-event rule |
| `AsgiReceives.ReceiveIsFaithful` | src/asgi/filter.rs:150-173 | in every run: bodies received are a prefix of the body, `more_body` is false exactly in the events given once the request is closed and only with its last byte, receive `k` gets event `k`, each is answered, waiting or disconnected exactly once, and one that could be answered has a callback on its way |
| `AsgiReceives.AnsweredWithNews` | src/asgi/filter.rs:388-398 | no callback answers receives without new bytes while the request is open |
| `EnvoyStreams.EnvoyStream.ReadFromBuffered` | src/asgi/websocket/stream.rs:22-46 | copies exactly the bytes not copied before, over any slicing, and leaves Envoy's buffer alone |
| `EnvoyStreams.EnvoyStream.ReadFrom` | src/asgi/websocket/stream.rs:48-62 | copies and drains everything |
| `EnvoyStreams.EnvoyStream.ReadBlock` | src/asgi/websocket/stream.rs:64-90 | copies and drains the first block, or less if there is less, and leaves the rest |
| `EnvoyStreams.BlockIsFull` | src/asgi/websocket/stream.rs:68-75 | a block is everything there is, up to its size |
| `EnvoyStreams.EnvoyStream.WriteTo` | src/asgi/websocket/stream.rs:92-99 | moves the write buffer to the connection once |
| `EnvoyStreams.EnvoyStream.Read` | src/asgi/websocket/stream.rs:115-138 | hands over the first bytes and keeps the rest; would block exactly when nothing is buffered and the stream is open |
| `EnvoyStreams.EnvoyStream.Write` | src/asgi/websocket/stream.rs:140-148 | buffers the bytes, or fails once closed |
| `EnvoyStreams.StreamIsExact` | src/asgi/websocket/mod.rs:160-204 | in every run: what the decoder has read and what is buffered are the first bytes the client sent, as many as were copied; a failed handshake leaves Envoy's buffer whole, a successful one loses and repeats nothing |
| `WebSocketReceives.FirstUnit` | src/asgi/websocket/mod.rs:421-452 | the first thing decoded does not depend on what follows it |
| `WebSocketReceives.ExactNext` | src/asgi/websocket/mod.rs:424-451 | decoding a message or control frame keeps the messages delivered equal to those in the stream |
| `WebSocketReceives.Reader.Next` | src/asgi/websocket/mod.rs:422 | the next unit of the stream, reading from it only while the unit is incomplete |
| `WebSocketReceives.Reader.PullBlock` | src/asgi/websocket/mod.rs:452-460 | only with a receive waiting and the stream buffer empty, takes at most one block out of Envoy |
| `WebSocketReceives.Reader.AnswerNext` | src/asgi/websocket/mod.rs:448-450 | the receive that has waited longest gets the message; one is always there |
| `WebSocketReceives.Reader.DisconnectAll` | src/asgi/websocket/mod.rs:505-511 | every waiting receive is told the close frame, in order |
| `WebSocketReceives.Reader.FinishClose` | src/asgi/websocket/mod.rs:514-548 | takes everything out of Envoy and decodes it until the connection is closed or the decoder needs more; no byte is lost |
| `WebSocketReceives.Reader.CleanUp` | src/asgi/websocket/mod.rs:490-493 | shuts both bridges and drops exactly what waited, late receives last |
| `WebSocketReceives.Reader.CloseDown` | src/asgi/websocket/mod.rs:462-512 | after a close frame or an error: both bridges shut, everything read, every receive told or, if late, dropped, no message more |
| `WebSocketReceives.Reader.Turn` | src/asgi/websocket/mod.rs:421-487 | one turn is one round of the run, with the receives that arrive; it keeps bytes, receives and messages, and makes progress |
| `WebSocketReceives.Reader.ReadWebSocket` | src/asgi/websocket/mod.rs:399-488 | whatever receives arrive meanwhile: it gets where its rounds take it; no byte is lost, receives are answered in order, messages are a prefix of those in the stream and all of them if a receive is left waiting or the stream ended; without a receive nothing is taken on an open connection, and what is held back stays under a block; once the end has begun both bridges are shut and everything is read |
| `WebSockets.SendCallable.Call` | src/asgi/websocket/executor.rs:460-605 | the new state, event, commit and answer for every message |
| `WebSockets.SendHandler.ProcessSendEvents` | src/asgi/websocket/mod.rs:269-397 | in the handshake takes one event and decides; later handles everything waiting in order |
| `WebSockets.SendHandler.HandleEvent` | src/asgi/websocket/mod.rs:347-395 | the frames, close and future for one event, or its drop |
| `WebSocketRuns.CallKeepsSafe` | src/asgi/websocket/executor.rs:460-605 | whatever is sent, the first event is not a message and at most one accept is ever enqueued |
| `WebSocketRuns.ResponseKeepsSafe` | src/asgi/websocket/mod.rs:269-391 | taking the deciding event leaves no second accept behind, and a batch meets none |
| `WebSocketResults.NeverPanics` | src/asgi/websocket/mod.rs:233-249 | in no run, tasks that outlive the application included, is a bridge empty where an event is taken for granted or an arm for impossible events reached |
| `WebSocketResults.CallbackIsReady` | src/asgi/websocket/mod.rs:247-249 | whenever a callback may take send events, `ProcessSendEvents` can be called |
| `WebSocketResults.ReceivesAreExact` | src/asgi/websocket/mod.rs:399-488 | in every run: receive `k` gets answer `k`, waits, or is dropped by the close; connects come first, disconnects last |
| `WebSocketResults.MessagesAreExact` | src/asgi/websocket/mod.rs:413-488 | in every run, for every decoder: the messages answered are a prefix of those in the bytes that arrived, bytes left over from the handshake included, and all of them once the stream ended or while a receive waits on an open connection with no commit on its way |
| `WebSocketResults.RoundsAreARun` | src/asgi/websocket/mod.rs:421-487 | the rounds of `ReadWebSocket` with the receives it meets are steps of a run |
| `WebSocketResults.OutputIsOrdered` | src/asgi/websocket/mod.rs:347-395 | in every run: at most one handshake answer, frames only after an accept, after a close frame no message and no cut for the end of the application, and the messages sent are a prefix of those in the messages sent after the accept, all of them once nothing waits on an open connection |
| `WebSocketResults.HandshakeIsAnswered` | src/asgi/websocket/mod.rs:269-345 | in every run the handshake is answered with 101, 403 or 500 exactly as the first thing the application did was to accept, to close or to fail; if it just ended the connection is closed |
| `WebSocketResults.ClosesAreTrue` | src/asgi/websocket/mod.rs:347-512 | in every run: a close frame sent is the application's, that of its failure, or what ended the client's stream; receives are told the latter if there is one; once nothing waits on an open connection every close and failure was shown |
| `WebSocketResults.CutsAreRight` | src/asgi/websocket/mod.rs:144-195 | the connection is cut for a bad handshake exactly on junk after the request or data before the answer |
| `WebSocketResults.AnswersAreRight` | src/asgi/websocket/executor.rs:460-605 | in every run each message is answered, errors included, as its place among the messages says |
| `WebSocketRuns.HandledAllFrames` | src/asgi/websocket/mod.rs:347-396 | a batch sends its messages in order up to the first close |
| `WebSocketResults.SendsResolveOnce` | src/asgi/websocket/executor.rs:653-665 | every send future is resolved at most once, exactly once when no event waits, and as many with success as accepts and messages went out |
| `WebSocketResults.NothingIsStranded` | src/asgi/websocket/mod.rs:233-261 | with no response commit on its way and the watermark low no event waits; with no request commit on its way and the loop not running, a receive waits on an open connection only if the decoder has every byte that arrived and needs more |
| `WebSocketResults.EverythingSettles` | src/asgi/websocket/mod.rs:233-261 | in every run commits, callbacks and rounds are bounded by what the application, the client and the watermarks did; until nothing is on its way one of them is possible, or the connection is gone and nothing waits |
| `ResponseContents.ResponseContent.FeedResponseData` | src/asgi/transport.rs:428-435 | buffers the data and asks for a notify exactly if a read is pending |
| `ResponseContents.ResponseContent.FeedResponseTrailers` | src/asgi/transport.rs:437-456 | keeps the trailers, ends the stream and asks for a notify exactly if a read is pending |
| `ResponseContents.ResponseContent.Reset` | src/asgi/transport.rs:520-525 | records the reason and the end, and asks for a notify exactly if a read is pending |
| `ResponseContents.ResponseContent.Notify` | src/asgi/transport.rs:463-513 | resolves a live pending read with buffered data before any error or end; a cancelled read leaves the data |
| `ResponseContents.ResponseContent.Anext` | src/asgi/transport.rs:553-590 | data first, then exception, reset, end, or a pending read; an empty chunk if one is pending |
| `ResponseContents.ReportKeepsOk` | src/asgi/transport.rs:485-511 | an outcome given with everything delivered keeps the order of data before ends, and tells the right end |
| `ResponseContents.NothingLostOrStuck` | src/asgi/transport.rs:430-590 | in every run: chunks returned plus the buffer are the bytes fed, and a chunk is all there is; after the data a read gets the exception, else the reset, else the end that came, with all trailers received by then; at most one read waits, and one that could be served has a notify on its way |
| `ResponseContents.ReadWaitsForMore` | src/asgi/transport.rs:553-590 | in every run a read waits exactly if there is no data, exception, reset or end to give it, and is given an empty chunk only while another one waits |
| `ResponseContents.SettledForGood` | src/asgi/transport.rs:473-483 | a resolved or cancelled read future never changes again |

## Left out

- `WorkQueues.WorkQueue.TryPop`: one locked pass only; the loop around it and the park loop are steps of the run (`Check`, `Park`, `Spurious`), because they block on other threads.
- `WorkQueues.ClosedRun`: spurious returns and pushes after the close are allowed and each adds to the bound; that there are finitely many of them is not promised by the code.
- `BlockingPools.Pool.Execute`: a submission with nothing interleaved; interleaved ones, and `shutdown` with its condition variable loop, are steps of the run.
- `RequestInputs.RequestInput.DoRead`: the reply of the blocking receive is a parameter; the run connects it to the filter. A receive that fails because the filter is gone is not modelled.
- `RequestInputs.RequestInput.Readlines`: the reply is a parameter here too; `ReadsAreIdeal` says that it is everything left.
- `RequestInputs.RequestReader.AnswerRaw`: the allocation for a large size is not modelled.
- `WsgiResponses.Filter.OnStreamComplete`: closing the read bridge is a step of the run in `RequestInput.dfy`; the transport bridge and pending upstream responses closed by the same callback are not modelled.
- `WsgiResponses.FlowControl`: the body loop of `execute_app` is steps of the run (`Yield`, `ReceiveWritten`, `Finish`), because it blocks on the filter.
- `AsgiResponses.ResponseFilter.OnStreamComplete`: the receive bridge closed by the same callback is in `AsgiReceive.dfy`; the upstream responses closed by it are not modelled.
- `ResponseContents.NothingLostOrStuck`: trailers arrive at most once for a response (section 8.1 of RFC 9113), and are attached before the content is handed out, as the transport does.
- `WebSocketReceives.Reader.ReadWebSocket`: the decoder is any function that recognises a unit from its own bytes; framing, masking, limits, UTF-8 checks, compression (sections 5 and 7 of RFC 6455, RFC 7692) and the frames it writes by itself are not modelled. Which way `finish_close` closes the connection is not told apart.
- `WebSockets.SendCallable.Call`: whether a message is text or binary is taken to travel with its bytes.
- `WebSockets.SendHandler.ProcessSendEvents`: subprotocol and header contents of the handshake answer are not modelled.
- `WebSocketResults.OutputIsOrdered`: what the close frame of a reply contains on the wire is up to the decoder; frames it writes by itself are not among the effects. That `send` on the decoder succeeds while no close frame is known is taken for granted.
- `EventLoops.LoopHandle.Drain`: a failure of `call_soon` and errors of single tasks are not modelled.
- A drained batch is handled in one step of the WebSocket run; sends that happen during it count as later ones. `EventBridge.Process` justifies that.
- Watermarks are an environment: they rise only after something was written and fall only after they rose. Callbacks after the destruction of a filter do not happen.
- Futures are numbers with a one-shot result; the event loop callback that sets it is the subject of `EventLoop.dfy` only.
- The shape of Envoy's buffer after a drain is one slice; the methods are proved for any slicing.
- The transport request side, its reset reasons and stream handles, lifespan, trace context, the WSGI transport, scope building, the error stream, header tables and the command line: small or mere plumbing.
- Memory orderings: a flag store and its load are steps of one sequentially consistent run.
- A response that never completes, because an ASGI application returns early or never sends announced trailers, or a WSGI application does not return, is allowed by the code and not excluded here.
- Upstream start requests are not resolved by the end of the ASGI stream in the code; no result says they are.
