# Verification of rag-core's message passing and streaming

A Dafny project that models the concurrent and streaming parts of rag-core and proves what they keep.
`dafny verify dfyconfig.toml` checks all of it.

| file | what it models |
|---|---|
| `common.dfy` | declarations the other files share |
| `mq_table.dfy` | what one message-queue command does to the worker's subscriber table, poller and tag counter |
| `mq_worker.dfy` | the worker as an object: the command methods, the dispatch of a poll result, the loop |
| `mq_rpc.dfy` | the control RPC: any number of calling threads, the locked command table, the network, the worker |
| `mq_lifecycle.dfy` | `init`, `stop` and the worker thread at the level of the stop flag, the thread object and the context |
| `write_pump.dfy` | the write pump of the four reactors with `_flush` as one step, and the reactor methods |
| `pump_steps.dfy` | the same pump with every atomic load, store and queue operation a step of its own |
| `pump_refinement.dfy` | the two grains of the pump agree |
| `reactor_registry.dfy` | the registries of live reactors, over runs of creation, naming, stopping and destruction |
| `query_run.dfy` | one query: the pool thread on the fine-grained pump, against gRPC, cancellation and OnDone |
| `query_answer.dfy` | what a query stores and sends, said of its whole runs |
| `embedding_reactor.dfy` | the embedding stream: its methods, and its runs on the fine-grained pump |
| `audio_buffer.dfy` | the audio FIFO and the recognition loop that drains it |
| `sse_reader.dfy` | the incremental reader of a server-sent-events body |
| `schema_updater.dfy` | the transactional schema migration |

## How things are modelled

Objects that the source updates in place are classes whose methods are proved against functions on values. Where
threads interleave, the threads are a step system: every operation another thread can notice is one step, steps
come in any order (sequential consistency), and the main results hold in every reachable state or over every run.

What lies outside is a parameter. ZeroMQ calls succeed or fail as a number on each command says; sockets are paired
request and reply that may lose a message; `hj::channel` is a FIFO, `hj::ring_buffer` a FIFO within its capacity; gRPC
calls OnWriteDone once for each StartWrite; SQLite transactions and statements, JSON decoding, recognition and
index building are functions. Ids, tags and times are natural numbers.

The worker body is `_run_loop`: `_run`, which `init` starts, only sets up sockets and refers to `_run_loop` in a
comment, and nothing calls it.

The event reader follows the source, which reads a subset of sections 9.2.5 and 9.2.6 of the WHATWG HTML Living
Standard: a bare CR does not end a line, and the space after `data:` is required.

Where the code does not promise a property, a lemma gives the case and another says when it does hold:

- with flushes one at a time, a message may be skipped after a Stop: `PumpSteps.StopMaySkipAMessage`,
  `QueryRun.StopMaySkipAPiece`; exactly after a drain crosses a flush: `PumpSteps.SkipsExactlyAfterCrossing`
- overlapping flushes may have two writes outstanding, and start messages in another order:
  `PumpSteps.OverlappingFlushesCollide`, `PumpSteps.OverlappingFlushesReorder`; one at a time they may not:
  `PumpSteps.SerialisedFlushesAreSafe`; either way each message is written once: `PumpSteps.NothingIsStranded`,
  `QueryRun.EachMessageIsWritten`, `EmbeddingReactor.EachAnswerIsWritten`
- a request may stay without an answer: `EmbeddingReactor.StopDuringBuild`; only the one that a cancellation finds in
  hand: `EmbeddingReactor.OneResponsePerRequest`
- Finish may never be called: `QueryRun.NotStoredNeverFinishes`, `QueryRun.CancelledAfterLoop`. With no failed write,
  a query whose question was not stored is never finished (`QueryRun.FinishIsCalledOnce`), and one whose question was
  stored exactly when the check after the loop finds the reactor cancelled and no callback had found it so
  (`QueryRun.StoredAndNeverFinished`)
- two final messages, if the watch dog could refuse: `QueryRun.RefusalSendsTwoFinals`; else one: `QueryRun.AtMostOneFinal`
- a worker may run when `stop` returns: `MqLifecycle.StartInsideStop`; exactly when one came up after the join:
  `MqLifecycle.StopLeavesNothing`
- a live reactor may not be in its registry: `ReactorRegistry.SameIdLosesTheSecond`; when it is:
  `ReactorRegistry.FoundUntilTouched`
- the cut of a stream may matter for pieces after `[DONE]`: exactly when, `SseReader.WhenCuttingMatters`
- a database may be left half migrated, because the result of `begin` is not looked at:
  `SchemaUpdater.NoTransactionNoRollback`; exactly when, `SchemaUpdater.AllOrNothing`
- the recorded version may go down, and a second run change a database: because of a failed `begin`
  (`SchemaUpdater.UnguardedGoesWrong`), or of a 64-bit version read into an int
  (`SchemaUpdater.MisreadVersionMayDecrease`, `SchemaUpdater.MisreadVersionRunsAgain`); exactly when, for one entry,
  `SchemaUpdater.VersionNeverDecreases` and `SchemaUpdater.SecondRunChangesNothing`. For a whole list neither
  happens if no script of it runs outside a transaction and versions are in the int range
  (`SchemaUpdater.VersionsOnlyGrow`, `SchemaUpdater.SecondRunOfAll`), and `SchemaUpdater.UnguardedGoesWrong` shows
  both for every list that has such a script

## Model

| member | source | states |
|---|---|---|
| `MqRpc.TableIsSequential` | src/mq.h:313-364 | in every reachable state the subscriber table is that of a sequential queue executing the claimed commands in claim order, each with the result the sequential queue gives |
| `MqRpc.AtMostOnce` | src/mq.h:583-607 | each command id is executed at most once, with its own call's command, after that call began |
| `MqRpc.ReplyMeansExecuted` | src/mq.h:748-808 | a request that returned with a reply had its own command executed exactly once, between call and return, and returned that execution's result |
| `MqRpc.ZeroMeansExecuted` | src/mq.h:803-807 | a request that returned 0 was executed exactly once, with result 0 |
| `MqRpc.RealTimeOrder` | src/mq.h:748-817 | of two executed requests, one replied before the other was called, the first ran first |
| `MqRpc.GivingUp` | src/mq.h:786-816 | a request that gave up returns -1, and was too late exactly if its command is executed or in the worker's hands |
| `MqRpc.EraseDecides` | src/mq.h:829-833 | erasing finds the command in the table exactly when the worker has not claimed it |
| `MqRpc.WithdrawnNeverRuns` | src/mq.h:583-607 | a command withdrawn before the worker claimed it is never executed, in any continuation |
| `MqRpc.PendingIsInProgress` | src/mq.h:758-816 | every id in the pending table is that of a stored request still in progress, so on every return path it is absent |
| `MqRpc.TableIsAlwaysConsistent` | src/mq.h:868-872 | over all interleavings and restarts: distinct tags above the control tag; the poller is the control socket plus the current subscribers, or empty when no worker runs; a tag drawn once is never another subscriber's, however the run goes on |
| `MqRpc.SentRequestsAreSomewhere` | src/mq.h:758-808 | in every run that lost no message, the request of a call waiting for its reply is on its way, in the worker's hands or answered, or the worker died executing it |
| `MqRpc.StoredRequestCanBeServed` | src/mq.h:583-617 | while the worker is free a stored command can be served: some run without losses or anyone giving up executes it alone and its caller returns the result it has on the table |
| `MqRpc.EveryCommandCanBeServed` | src/mq.h:748-817 | from every reachable state with a worker not dead, and for every command, such a run gets the worker free, calls for the command, executes it and returns its result |
| `MqTable.ExecKeepsRunning` | src/mq.h:366-490 | every command, whatever fails in it, keeps tags distinct and new, and the poller equal to control socket plus subscribers |
| `MqTable.OthersUntouched` | src/mq.h:313-364 | a command changes no subscriber but its own |
| `MqTable.FailureAddsNobody` | src/mq.h:366-490 | a command that does not return 0 leaves the set of subscribers and the poller as they were |
| `MqTable.SubscribedMeansAllTopics` | src/mq.h:366-441 | a subscription that returned 0 left an entry with every topic and the callback given |
| `MqTable.RemoveUndoesSubscribe` | src/mq.h:471-490 | removing a subscriber just created restores table and poller; only the counters moved |
| `MqTable.ZeroMeansAllCallsSucceeded` | src/mq.h:313-490 | a command returns 0 exactly if its subscriber was there where it had to be and each of its ZeroMQ calls succeeded, and otherwise -1 or nothing |
| `MqTable.WhenACommandThrows` | src/mq.h:366-490 | a command throws exactly if its failing call is one outside a try block |
| `MqTable.UnsubscribeMeans` | src/mq.h:443-469 | each topic got as many more unsubscribe calls as it occurs among the topics done, no subscribe call was made, the rest of the entry is unchanged; 0 means all topics were done |
| `MqTable.ResubscribeMeans` | src/mq.h:415-441 | likewise with subscribe calls for a subscriber that exists, its callback replaced if one is given |
| `MqTable.FirstSubscriptionMeans` | src/mq.h:366-413 | a new subscriber has the address and callback given and one subscribe call for each topic |
| `MqTable.UnsubscribeUndoesSubscribe` | src/mq.h:366-469 | unsubscribing what was just subscribed leaves every topic's subscribe less unsubscribe calls as they were |
| `MqTable.RemovedMeansGone` | src/mq.h:471-490 | a removal that returned 0 took that subscriber and its socket, and no other, from table and poller |
| `MqWorker.EventsReachTheirSubscribers` | src/mq.h:675-704 | an event reported for a subscriber is delivered, once, exactly if it is readable, reached, and that subscriber is still in the table then; to that subscriber over its socket at the poll; otherwise to nobody, not even one created again under the id |
| `MqWorker.DeliveriesAreReported` | src/mq.h:675-704 | every delivery of a batch is of one of its events, and reaches the subscriber polled under that event's tag |
| `MqWorker.BatchDeliversDue` | src/mq.h:675-708 | the deliveries of a batch are those due, each once and in the order of the events |
| `MqWorker.HowABatchEnds` | src/mq.h:556-617 | of a batch's events the first n are reached; the loop is left exactly if the last of them is a stop command or a closed context, dies exactly if its command throws, else all are reached; the table goes from event to event by the commands claimed |
| `MqWorker.HowTheLoopEnds` | src/mq.h:666-708 | the loop ends as its last poll's batch says, or is left at the first round whose flag is set, or has no more rounds; its table is that of its last batch |
| `MqWorker.LoopReachesSubscribers` | src/mq.h:666-708 | over whole runs of the loop: in each round an event reported for a subscriber is delivered, once, exactly if it is readable, reached, and that subscriber is still in the table then; to that subscriber over its socket at that round's poll |
| `MqWorker.LoopDeliversItsPolls` | src/mq.h:666-708 | the loop polls in no round whose flag was set, goes from one poll's table to the next by that poll's batch, and delivers in each round what that batch delivers |
| `MqWorker.Worker.ExecuteCommand` | src/mq.h:313-364 | the worker's state and the result after a command are those of the sequential function |
| `MqWorker.Worker.DoSubscribe` | src/mq.h:366-441 | likewise for subscribing, new or existing, up to the first failing call |
| `MqWorker.Worker.DoUnsubscribe` | src/mq.h:443-469 | likewise for unsubscribing |
| `MqWorker.Worker.DoRemove` | src/mq.h:471-490 | likewise for removal |
| `MqWorker.Worker.FindTag` | src/mq.h:696-703 | the scan finds an entry with the tag if there is one |
| `MqWorker.Worker.HandleBatch` | src/mq.h:675-708 | table, outcome and deliveries of a batch are those of the batch function; the table stays consistent |
| `MqWorker.Worker.RunLoop` | src/mq.h:638-717 | table, outcome and deliveries of the loop are those of the loop function; a normal exit leaves table and poller empty, any other leaves them consistent |
| `MqLifecycle.WorkersStartEmpty` | src/mq.h:710-735 | a normal exit empties table and poller, and no worker ever starts with what a dead one left |
| `MqLifecycle.StopLeavesNothing` | src/mq.h:210-248 | when a stop returns, served, cut off by a context shutdown, or with no thread to join, no worker runs if and only if none came up since the join |
| `MqLifecycle.StopReturnsUninitialized` | src/mq.h:210-248 | whichever way stop returns, `_initialized` is false |
| `MqLifecycle.StartInsideStop` | src/mq.h:244-247 | a start between the join and the last store leaves a running worker that `_initialized` denies |
| `MqLifecycle.AtMostOneMorePoll` | src/mq.h:666-708 | once the stop flag is set the worker polls at most once more, and only if it had already loaded the flag |
| `MqLifecycle.LoopEndsForGood` | src/mq.h:666-742 | after a stop command served, a closed context or an exception the worker never polls again |
| `MqLifecycle.LeavesStep` | src/mq.h:666-742 | with the flag set every worker step brings it nearer its end and nothing else moves it |
| `MqLifecycle.WorkerIsNeverStuck` | src/mq.h:638-742 | until it has ended a worker has a step to take on its own, if and only if it is not receiving on the control socket of a context not shut down |
| `MqLifecycle.JoinIsNotBlocked` | src/mq.h:225-245 | while `stop` waits in its join the thread has ended or has a step to take that needs no other thread and no message |
| `PumpSteps.NothingIsStranded` | src/server_reactor.cpp:159-173 | any number of threads, overlapping flushes: an uncancelled quiet reactor has an empty queue and has started every accepted message exactly once |
| `PumpSteps.SerialisedFlushesAreSafe` | src/server_reactor.cpp:197-207 | flushes one at a time, Stop and OnCancel anywhere: StartWrite only with no write outstanding, in order of acceptance, and all of them if never cancelled |
| `PumpSteps.OverlappingFlushesCollide` | src/server_reactor.cpp:361-374 | overlapping flushes can have two writes outstanding, on each reactor |
| `PumpSteps.OverlappingFlushesReorder` | src/server_reactor.cpp:361-374 | overlapping flushes can start the second message before the first, with nobody cancelling |
| `PumpSteps.WrittenIsPermutation` | src/server_reactor.cpp:343-383 | however flushes overlap, a quiet uncancelled reactor has written the accepted messages, each once |
| `PumpSteps.NoMessageIsSkipped` | src/server_reactor.cpp:343-383 | flushes one at a time: until a drain crosses a flush the messages started are the first ones accepted without a gap, after a cancellation too |
| `PumpSteps.CrossingSkips` | src/server_reactor.cpp:361-374 | every drain that crosses a flush has a continuation in which the message it removed is never started and the messages started have a gap |
| `PumpSteps.SkipsExactlyAfterCrossing` | src/server_reactor.cpp:197-207 | flushes one at a time: after a step of a run without a crossing a message can be skipped, with no further crossing, if and only if the step is a drain that crosses a flush |
| `PumpSteps.StopMaySkipAMessage` | src/server_reactor.cpp:197-207 | on each reactor a Stop inside a flush can make the pump start a message and never the one before it |
| `PumpSteps.DrainsBeforeLeaving` | src/server_reactor.cpp:197-207 | a thread leaves Stop, and comes to Finish on the reactors whose OnWriteDone drains, only with the reactor cancelled and the queue empty |
| `PumpSteps.WriteDoneFinishes` | src/server_reactor.cpp:837-872 | an OnWriteDone goes on to Finish exactly if the write failed or, on the embedding reactor, its check finds the reactor cancelled |
| `PumpRefinement.FineRefinesCoarse` | src/server_reactor.cpp:343-383 | a fine-grained run with flushes one at a time that ends uncancelled is a run of the pump whose `_flush` is one step |
| `WritePump.RunIsSound` | src/server_reactor.cpp:343-383 | with `_flush` as one step, uncancelled: `_is_writing` says exactly whether the one write is outstanding, and started followed by queued is accepted; cancelled: no write starts and started stays a prefix of accepted |
| `WritePump.IdlePumpIsDone` | src/server_reactor.cpp:361-374 | an uncancelled pump with nothing to flush and no write outstanding has started all it accepted, in order |
| `WritePump.Reactor.Send` | src/server_reactor.cpp:343-359 | an uncancelled send accepts the message and leaves a write under way: if there was none, of the oldest message waiting; a cancelled one changes nothing |
| `WritePump.Reactor.Flush` | src/server_reactor.cpp:750-770 | the new state of a flush, all three early returns included |
| `WritePump.Reactor.OnWriteDone` | src/server_reactor.cpp:837-872 | for each of the four reactors: a completed write starts the oldest message waiting, a failed one cancels, drains or not, and finishes; what a cancelled reactor does instead |
| `WritePump.Reactor.Stop` | src/server_reactor.cpp:892-904 | cancel, clear, drain to empty, and TryCancel for the embedding reactor only |
| `WritePump.Reactor.OnCancel` | src/server_reactor.cpp:487-497 | cancel alone, or cancel, clear and drain, by reactor; nothing else changes |
| `WritePump.DrivenReactorIsDone` | src/server_reactor.cpp:343-383 | a reactor driven by sends and completed writes has, whenever no write is outstanding, started exactly the messages sent, in order |
| `ReactorRegistry.RegistrationMeans` | src/reactor_mgr.h:21-25 | a reactor opened with an id or named is live and found under it; only the entry it takes changes |
| `ReactorRegistry.ClosingMeans` | src/server_reactor.cpp:154-157 | a reactor destroyed is gone and the entry under its id with it; nothing else changes |
| `ReactorRegistry.RegistryIsSafe` | src/reactor_mgr.h:21-43 | whatever ids are reused, every pointer in the registry is a live reactor that owns the id |
| `ReactorRegistry.RegistryIsTheLiveReactors` | src/reactor_mgr.h:117-147 | with live ids distinct the registry is exactly the live registered reactors |
| `ReactorRegistry.FoundUntilTouched` | src/reactor_mgr.h:21-31 | a live reactor is still found exactly when nothing registered its id again and no other with that id was destroyed |
| `ReactorRegistry.SameIdLosesTheSecond` | src/server_reactor.cpp:154-157 | two queries under one id: closing the first leaves the second live and not in the registry |
| `ReactorRegistry.Registry.Register` | src/reactor_mgr.h:21-25 | the reactor is entered under the id in place of any other there; the other entries stay |
| `ReactorRegistry.Registry.Unregister` | src/reactor_mgr.h:27-31 | no reactor is left under the id, whichever it was; the other entries stay |
| `ReactorRegistry.Registry.Stop` | src/reactor_mgr.h:33-43 | stopping touches only the reactor entered under the id, and leaves it cancelled with an empty queue |
| `QueryRun.ClientSeesAPrefix` | src/server_reactor.cpp:209-273 | every atomic step interleaved, flushes one at a time: the content sent to the client is a prefix of `_answer` in every state that is not cancelled, and in cancelled ones until a drain crosses a flush, on both paths |
| `QueryRun.StopMaySkipAPiece` | src/server_reactor.cpp:197-207 | after a crossing it need not be: the client is sent the first and third pieces and not the second |
| `QueryRun.EachMessageIsWritten` | src/server_reactor.cpp:343-383 | however flushes overlap, an uncancelled run at rest has written the accepted messages, each once |
| `QueryRun.PoolIsNeverStuck` | src/server_reactor.cpp:175-273 | until it has ended the pool thread has a step to take, unless flushes are one at a time and its own waits for another |
| `QueryRun.AtMostOneFinal` | src/server_reactor.cpp:234-273 | before OnDone, while the watch dog refused nothing, at most one final message is accepted and nothing after it; at most one is started, and with flushes one at a time nothing after it |
| `QueryRun.RefusalSendsTwoFinals` | src/server_reactor.cpp:251-256 | if the watch dog could refuse a piece, two final messages would be sent |
| `QueryRun.FinishIsCalledOnce` | src/server_reactor.cpp:275-341 | with no failed write Finish is called at most once; an uncancelled run that ended called it exactly if its question was stored |
| `QueryRun.NotStoredNeverFinishes` | src/server_reactor.cpp:139-187 | for every query, a run whose question is not stored sends its error, ends uncancelled and never calls Finish |
| `QueryRun.StoredAndNeverFinished` | src/server_reactor.cpp:263-273 | a run with its question stored, ended with no failed write, went through the check after the loop, and Finish was not called if and only if that check found the reactor cancelled and no callback had found it so |
| `QueryRun.FinishIsNeverCalled` | src/server_reactor.cpp:231-273 | the same from that check on, in every continuation |
| `QueryRun.CancelledAfterLoop` | src/server_reactor.cpp:263-267 | for every query with a pipeline, a cancellation after the loop and before the check ends the thread without Finish, with nothing queued, outstanding or running |
| `QueryRun.AnswerPointsAtQuestion` | src/server_reactor.cpp:175-195 | a run that stored its question writes at most one answer row, after it, whose previous id is the question's |
| `QueryAnswer.RowsAreQuestionAndAnswer` | src/server_reactor.cpp:175-227 | the first row is the question as it came, under the id it came with; the second is the whole of `_answer`, under the id drawn after the question was stored |
| `QueryAnswer.StoredIsSent` | src/server_reactor.cpp:175-273 | in an ended run never cancelled the stored answer is the text of the messages accepted, at rest that the client was sent |
| `QueryAnswer.AnswerIsAllHanded` | src/server_reactor.cpp:229-257 | while nothing was cancelled or refused `_answer` is all the loop handed over, in order |
| `QueryAnswer.AnAnswerIsStored` | src/server_reactor.cpp:175-273 | for every query with a pipeline and every piece, a run in which that is the answer, sent and stored |
| `QueryAnswer.FailedInsertIsReported` | src/server_reactor.cpp:175-193 | wherever OnDone may come and nobody cancelled, an answer that cannot be stored is reported and no row written |
| `QueryAnswer.LastMessageCarriesTheCode` | src/server_reactor.cpp:269-273 | the last message of an ended, uncancelled run with its question stored is final and carries the code the loop returned |
| `QueryAnswer.OthersArePieces` | src/server_reactor.cpp:243-257 | messages that are not final are not empty and carry no error |
| `QueryAnswer.OnlyLocalIsRefused` | src/server_reactor.cpp:275-341 | only the local path asks the watch dog |
| `QueryAnswer.CallbackStopFinishes` | src/server_reactor.cpp:234-241 | a callback that finds the reactor cancelled leads to Finish |
| `EmbeddingReactor.OneResponsePerRequest` | src/server_reactor.cpp:808-1018 | every atomic step interleaved: the n-th response put in the queue answers the n-th request handled; all but the request in hand are answered, and after a cancellation at most that one stays unanswered |
| `EmbeddingReactor.WrittenInOrder` | src/server_reactor.cpp:1020-1041 | flushes one at a time: the responses written are a prefix of the answers, after a cancellation until a drain crosses a flush; an uncancelled stream at rest has written them all |
| `EmbeddingReactor.EachAnswerIsWritten` | src/server_reactor.cpp:991-1041 | however flushes overlap, an uncancelled stream at rest has written the answers, each once |
| `EmbeddingReactor.ReaderIsNeverStuck` | src/server_reactor.cpp:808-835 | until its call is closed the reader has a step to take, unless flushes are one at a time and its own waits for another |
| `EmbeddingReactor.CancelledHandlesNoMore` | src/server_reactor.cpp:819-825 | a cancelled stream handles no further request |
| `EmbeddingReactor.StopDuringBuild` | src/server_reactor.cpp:927-996 | a Stop while an index is being built leaves that request, whatever it is, without an answer |
| `EmbeddingReactor.ClosedExactly` | src/server_reactor.cpp:808-835 | the call is closed exactly by a failed read or a request that finds the stream cancelled |
| `EmbeddingReactor.CancelledTakesNoDimension` | src/server_reactor.cpp:906-934 | a cancelled stream takes no further dimension, but for the request past both checks |
| `EmbeddingReactor.AnswerMeans` | src/server_reactor.cpp:936-988 | a response is for its request's chunk, 0 if none, and the stream's task; it holds the index built from that chunk with the dimension in force and reports success exactly if that was built and serialised to something, else why not |
| `EmbeddingReactor.LatestDimension` | src/server_reactor.cpp:927-934 | the dimension used for a request is that of the latest request that set one |
| `EmbeddingReactor.FirstTask` | src/server_reactor.cpp:797-806 | the task id of a response is the first non-zero one of the stream |
| `EmbeddingReactor.Stream.OnReadDone` | src/server_reactor.cpp:808-835 | a request is remembered, answered and followed by a new read, or the call is finished and nothing changes |
| `EmbeddingReactor.Stream.Process` | src/server_reactor.cpp:906-989 | one request's new memory and the one response sent, or nothing if cancelled |
| `AudioBuffer.EveryRunConserves` | src/audio_buffer.cpp:12-47 | for every interleaving the samples popped followed by the buffer are the samples pushed, and those are the samples of all pushes in order |
| `AudioBuffer.PopTakes` | src/audio_buffer.cpp:19-27 | a pop takes as many samples as asked for, or all there are |
| `AudioBuffer.WindowsAreGood` | src/server_reactor.cpp:666-721 | every window given to recognition has the required length: popped samples in order, each in one window, then zeros; short only after a time-out |
| `AudioBuffer.WaitIsPatient` | src/audio_buffer.cpp:29-47 | a wait ends at the first wake-up after which there are enough samples, or at the time-out with too few |
| `AudioBuffer.TaskFollowsTurns` | src/server_reactor.cpp:670-720 | a task hands over one window a turn, up to the first recognition fails on, and ends for no other reason than that, its flags, or a wait that left nothing |
| `AudioBuffer.Buffer.Pop` | src/audio_buffer.cpp:19-27 | the window is the front of the buffer padded with zeros, the rest of the array untouched |
| `AudioBuffer.Buffer.PopUntil` | src/audio_buffer.cpp:29-47 | the same after a wait for enough samples or a time-out; nothing at all if more is asked than fits |
| `AudioBuffer.RecognizeLoop` | src/server_reactor.cpp:670-720 | the loop leaves the FIFO and hands over the windows that the task function says |
| `SseReader.ChunkingIsInvisible` | src/caller.cpp:142-203 | however a body is cut, the pieces up to the first `[DONE]`, error or refusal, and which came first, are those of one pass over its lines; the buffer is what follows the last line feed |
| `SseReader.PiecesAreSandwiched` | src/caller.cpp:168-173 | all pieces of a run lie between the parse that ends at `[DONE]` and the one that passes over it |
| `SseReader.WhenCuttingMatters` | src/caller.cpp:168-173 | the pieces are the same for every cut if and only if passing over `[DONE]` lines would add none |
| `SseReader.RoundTrip` | src/caller.cpp:144-202 | payloads printed as data lines among blank lines, comments, other fields and payloads without a piece come back exactly, under every chunking, and the unfinished line stays buffered |
| `SseReader.StopsWhereItShould` | src/caller.cpp:168-199 | after printed lines that are accepted, a payload that cannot be decoded or whose piece is refused ends the stream in failure and `[DONE]` ends it well, whatever follows and however it is cut, with exactly the pieces up to there |
| `SseReader.NoPieceAfterRefusal` | src/caller.cpp:187-190 | for every body and every cut no piece follows one the callback refused |
| `SseReader.LinesSplit` | src/caller.cpp:148-154 | cutting a stream in two does not change its lines or its unfinished last line |
| `SseReader.ViewKeepsBytes` | src/caller.cpp:148-154 | lines and unfinished last line determine the buffer |
| `SseReader.StreamReader.OnData` | src/caller.cpp:142-203 | one call gives the pieces, the verdict and the buffer of the drain function; the loop ends by buffer length |
| `SseReader.StreamReader.Feed` | src/caller.cpp:142-203 | calls with the chunks of a body, until one refuses more, give the pieces and the buffer of the run that the results above are about; no piece follows a refused one |
| `SseReader.StreamReader.HandleLine` | src/caller.cpp:156-199 | the effect of one line, a refused piece included |
| `SchemaUpdater.EveryDatabase` | src/updater.cpp:128-225 | each database ends unchanged or after scripts of its own entries, non-blank statements in order: all of them and the version current, or, where no transaction began, those before the first that fails |
| `SchemaUpdater.AllOrNothing` | src/updater.cpp:172-216 | one entry leaves its database as it was or fully migrated, if and only if it is not that the database is opened and outdated, no transaction begins, and the script changes something and falls short |
| `SchemaUpdater.KeptOrUndone` | src/updater.cpp:132-223 | an entry leaves what its script did exactly if it is opened, outdated, its file read, and no transaction began or all succeeded, is current and is committed; else its database as it was |
| `SchemaUpdater.Migrate` | src/updater.cpp:128-225 | each database ends as its own entries alone make it |
| `SchemaUpdater.UpdateDatabase` | src/updater.cpp:132-223 | the database after the body of the loop, with every early continue |
| `SchemaUpdater.VersionNeverDecreases` | src/updater.cpp:151-216 | one entry lowers the recorded version if and only if its script leaves a lower one and is kept, outside a transaction or committed; in a transaction only a newer version that the int comparison misreads goes down |
| `SchemaUpdater.VersionsOnlyGrow` | src/updater.cpp:128-225 | with versions in the int range, a list none of whose scripts runs outside a transaction lowers no recorded version |
| `SchemaUpdater.MisreadVersionMayDecrease` | src/updater.cpp:151-159 | every newer version the comparison misreads can be lowered by some script |
| `SchemaUpdater.SecondRunChangesNothing` | src/updater.cpp:159-224 | a second run changes something if and only if its script does and is kept; in transactions only if the int comparison misreads what the first run recorded |
| `SchemaUpdater.MisreadVersionRunsAgain` | src/updater.cpp:159-224 | every version the comparison misreads, once recorded, lets a second run change the database |
| `SchemaUpdater.AMisreadVersion` | src/updater.cpp:151-159 | such a version exists: 2 to the 32 |
| `SchemaUpdater.SecondRunOfAll` | src/updater.cpp:128-225 | with versions in the int range, a second run of a list none of whose scripts runs outside a transaction changes nothing |
| `SchemaUpdater.UnguardedGoesWrong` | src/updater.cpp:172-198 | whenever a script of the list would run outside a transaction, there are statements and versions in the int range with which a run lowers the version and a second run changes the database again |
| `SchemaUpdater.NoTransactionNoRollback` | src/updater.cpp:174-198 | if `begin` fails, a failing script leaves what it did so far |
| `SchemaUpdater.SplitJoins` | src/updater.cpp:173-180 | the cut at semicolons loses nothing and no piece holds one |
| `SchemaUpdater.StatementsAreVisiblePieces` | src/updater.cpp:173-182 | the statements of a script are its pieces with a character other than blank, tab and line end, each with its semicolon, in order, and no others |

## Left out

- WritePump.RunIsSound: takes `_flush` as one step, so it does not cover a cancel or another flush that lands inside one; `PumpSteps` covers those, and the reactors' results rest on `PumpSteps`.
- PumpRefinement.FineRefinesCoarse: runs that end uncancelled; once cancelled, a flush past its checks may start a write that the pump with `_flush` as one step does not.
- PumpSteps.SerialisedFlushesAreSafe: flushes are assumed not to overlap, because the check and the set of `_is_writing` are not one operation.
- QueryRun.ClientSeesAPrefix: assumes flushes that do not overlap; overlapping ones can start messages in another order (`PumpSteps.OverlappingFlushesReorder`), and then `QueryRun.EachMessageIsWritten` and `QueryRun.AtMostOneFinal` are what is claimed of what is written.
- EmbeddingReactor.WrittenInOrder: assumes flushes that do not overlap, likewise; `EmbeddingReactor.EachAnswerIsWritten` does not.
- PumpSteps.SkipsExactlyAfterCrossing: assumes flushes that do not overlap, likewise.
- QueryRun: the query's pool thread is a step system, not a class, because its results are about what other threads do between its operations; object destruction is one step.
- QueryRun: the append to `_answer` is one step with the check of `_is_cancelled` before it; an OnDone between the two would read a string being written. Messages are content, final mark and code; their session and message ids are left out.
- QueryRun.FinishIsCalledOnce: nothing is claimed once a write has failed; OnWriteDone then finishes the call a second time.
- MqRpc: `_request` and the worker's turn are steps on values, since they interleave; update in place is shown for the worker's own state in `mq_worker.dfy`.
- MqRpc.ReplyMeansExecuted: says nothing of a request made while the queue is not initialised, which returns -1 before it draws an id.
- MqLifecycle.StopLeavesNothing: assumes one caller of `stop` at a time, and no `stop` called while an `init` is starting the thread; both ends would then touch the thread object at once.
- MqLifecycle.StopReturnsUninitialized: under the same assumptions.
- MqLifecycle: two threads inside the starting part of `init` at once; `init` releases its lock before it assigns the thread object (src/mq.h:90-104), so two first requests can both get there, and the second assignment to a joinable thread object ends the program.
- MqWorker.Worker.RunLoop: the messages a subscriber event carries, and exceptions from callbacks, which the worker swallows, are not modelled; a failed publish is a status.
- AudioBuffer.Buffer.Push: pushes stay within capacity; what the ring buffer does beyond it is not known here. The unlocked check of `_is_processing` is covered by letting other tasks pop at any time.
- SchemaUpdater.SecondRunChangesNothing: the second run is in the same circumstances as the first: same files, same failures.
- Raw reactor pointers used after the registry's lock is released, the stack-local message handed to StartWrite, and `delete this` against pool tasks: object lifetimes are not modelled.
- Memory orders weaker than sequential consistency, 64-bit wrap-around of ids and tags, and wall-clock time.
- The router and `caller_mgr`, which pick pipeline, model and caller by configuration, prompt length and wording; here the choice is a parameter.
- Configuration loading, and `updater::check`, which compares a client's version with a configured least one; they keep no state the modelled parts change.
- The token loop of the language model, speech recognition and index building, which call libraries outside the repository; they are functions or parameters of a step here.
- The gRPC handlers of the server, which pass one request to one call of the parts above or to one SQL statement.
