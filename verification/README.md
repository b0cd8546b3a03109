# MLServer: verified models of its stateful kernels

Dafny models of the parts of MLServer whose correctness is hard to see from one body at a time, and
proofs of what those parts are for:

- **Request batching** (`mlserver/batching`): many inference requests are fused tensor by tensor along
  axis 0, and the model's single response is cut up again. Main result: batching is invisible to each
  caller, for every model that acts row by row (`Transparency.BatchingIsTransparent`), and end to end
  through the adaptive batcher, whatever the interleaving (`AdaptiveFutures.EveryCallerGetsItsOwnPrediction`).
- **Adaptive batcher** (`mlserver/batching/adaptive.py`): a bounded queue, a restartable batcher task,
  one future per caller, batches that end in any order. FIFO conservation, no lost wakeup, every caller
  answered exactly once.
- **Worker dispatcher and pool** (`mlserver/parallel`): round-robin over a snapshot, model updates under
  a lock, crash and restart with replayed loads. No lost load, exactly which messages of dead workers
  complete, mutually inverse in-flight maps, fair rotation.
- **Model registry** (`mlserver/registry.py`) and the repository handler: a versioned store with an
  incrementally maintained default, rolling reload, and synchronisation with a repository.
- **Raw tensors** (`mlserver/raw.py`): the BYTES layout and fixed-width integers as two-sided inverses,
  and moving the data of a list of tensors out and in. The tensors are those of the Open Inference
  Protocol (V2): flattened, row-major data; the BYTES layout is that of the Triton client.
- **Offline batch pipeline** (`mlserver/batch_processing.py`): a producer, consumers, a finalizer and two
  bounded queues. Every line ends up in exactly one place, what is written for it is its own answer
  (`BatchEndToEnd.EveryLineGetsItsOwnAnswer`), and the pipeline always gets to its end.

## How the model is built

| file | models |
|---|---|
| `OrderedDict.dfy` | Python's insertion-ordered `dict` |
| `Shapes.dfy`, `Parameters.dfy`, `Batching.dfy`, `RequestedOutputs.dfy`, `MergedInputs.dfy` | merging and splitting, as functions and as the objects and loops of the source, and what is merged in terms of the requests alone |
| `Transparency.dfy` | row models, and why batching is invisible to them |
| `AdaptiveBatching.dfy`, `AdaptiveProgress.dfy`, `AdaptiveFutures.dfy`, `AdaptiveFailures.dfy`, `AdaptiveBatcherClass.dfy` | the batcher as a state machine, how it fills batches, its futures, which errors they hold, and the object whose methods are the steps |
| `AsyncResponding.dfy`, `PoolProtocol.dfy`, `PoolTurns.dfy`, `PoolCrashes.dfy`, `PoolUpdates.dfy`, `PoolRuns.dfy`, `PoolOutcomes.dfy`, `PoolHistories.dfy`, `RoundRobin.dfy`, `InferencePooling.dfy` | in-flight tracking, the crash and restart protocol, what follows from the event loop's order, what deaths and failing updates do, runs in which it goes wrong, what senders get, fairness, and the objects |
| `ModelVersions.dfy`, `VersionText.dfy`, `Registry.dfy`, `RegistryDefaults.dfy`, `RegistryLookups.dfy`, `RegistryObjects.dfy` | version order, the registry, its default, what lookups find, and the object |
| `RepositorySync.dfy`, `RepositoryHandlers.dfy` | the handler's pass over a repository, and the objects |
| `RawBytes.dfy`, `RawTensors.dfy`, `RawFormats.dfy` | the codec, `extract_raw` / `inject_raw` on tensor objects, and the bytes of every datatype in numbers |
| `BatchItems.dfy`, `BatchConservation.dfy`, `BatchAnswers.dfy`, `BatchPipeline.dfy`, `BatchEndToEnd.dfy`, `BatchTasks.dfy`, `BatchQueues.dfy` | one batch of lines, what it conserves and what it answers, the pipeline, its lines from end to end, the loops of its tasks, and the order of its queues |

A protocol is a state, a set of events with a guard (`Enabled`), a step, and a run that skips events that
cannot happen (`After`); a step is what the program does between two yields of the event loop. Objects of
the source are classes; each method is tied to the function or the step that specifies it, and the
properties are proved about those. Timeouts, deaths, message delivery and the ends of predictions are
events, fresh UUIDs and process ids are arguments that must not have been used.

Proofs are by explicit recursion: lemmas switch automatic induction off.

## What the code does that one might not expect

Where a property does not hold of the code, it is stated exactly when it does:

- A request without inputs, and any request of a batch whose response has no outputs, is never answered
  (`AdaptiveFutures.LeftPendingExactly`, `Batching.AnsweredExactlyTheIdsWithInputs`).
- A parameter that several requests hold becomes the list of their values exactly when the first value
  is not itself a list (`Parameters.FoldListsHeldValuesIffFirstIsNoList`).
- The in-code note says minibatch sizes are assumed equal across heads; the code lets a later head
  overwrite an earlier one, and so does the model.
- A new worker gets into rotation with the next death of another one or the next worker that is ready,
  whether it has the lock and its models by then or not (`PoolTurns.EntersRotationExactly`), so that a
  request can be served by a worker that was never sent the model (`PoolRuns.RequestBeforeReplay`).
- A worker that dies while `_start_worker` waits for the lock is put back into the dict when it gets the
  lock (`PoolCrashes.DeadReturnsExactlyIfItDiedStarting`), and is then given inference requests. Whatever
  is sent to a dead worker waits for ever: a message completes exactly if its worker was alive when it was
  sent (`PoolCrashes.CompletesExactlyIfTrackedAlive`, `PoolRuns.RequestToTheDeadIsOrphaned`).
- An unload that fails leaves the model registered, and the workers it was sent to without it
  (`PoolUpdates.FailedUpdateBreaksExactly`, `PoolRuns.FailedUnloadLeavesItRegistered`). A reload
  registers its settings before its fan-out (`PoolUpdates.ReloadKeepsLoadsExactlyIfLoadedBefore`).
- `_is_newer` is documented to return a truth value; it returns a signed difference. Mixed integer and
  other versions can beat one another in a circle (`ModelVersions.MixedVersionsCycle`).
- After the cached default has been cleared, any version that is loaded becomes the default
  (`RegistryDefaults.RegisterKeepsMaximalExactly`). A load hook that raises after an earlier hook has
  replaced the model can leave a default that is in no entry, and that cannot be unloaded as the default
  (`Registry.RunsAreCoherentExactly`, `Registry.UnloadedIsGoneExactly`): the log says that the model is
  removed, and it is still found (`RegistryDefaults.FailedLoadLeavesModelExactly`). Loading a model
  without a version while the default has one unloads that version and keeps it listed
  (`RegistryDefaults.UnversionedLoadReplacesVersionedDefault`).
- A repository that lists the empty version may lose it during the pass
  (`RepositorySync.SyncHoldsListedKeysExactly`, `RepositorySync.EmptyVersionIsLost`).
- BOOL tensors take any truth value and any non-zero byte, so that they only come back when they are
  canonical (`RawTensors.UnpackUndoesPackExactly`, `RawTensors.PackUndoesUnpackExactly`).
- A batch size of zero or less makes one batch of the whole file (`BatchTasks.CutsExactly`).
- A line that is no JSON loses its whole batch; a repeated id loses the earlier line; a request without
  inputs is lost when sending succeeds (`BatchConservation.LineIsAnsweredExactly`, `BatchItems.ProcessItems`).

## Model

| member | source | states |
|---|---|---|
| Shapes.ProductSplitsBatchAxis | mlserver/batching/shape.py:25-39 | the items of a tensor are batch size times element size, for every shape with an axis |
| Shapes.Shape.SetBatchSize | mlserver/batching/shape.py:29-33 | the setter replaces axis 0 only: element size is kept and the product becomes the new size times it |
| Shapes.Shape.ElemSizeOf | mlserver/batching/shape.py:36-39 | the reduction over a copy without the batch axis is the product of the other axes |
| Parameters.MergeInputParametersLoop | mlserver/batching/requests.py:48-79 | the two loops over common and other keys compute the key-by-key merge |
| Parameters.FoldCollectsHeldValues | mlserver/batching/requests.py:48-79 | folding over any list of requests: absent keys stay absent, a single holder's value is untouched, several values are collected in request order, content_type and headers keep the last |
| Parameters.FoldListsHeldValuesIffFirstIsNoList | mlserver/batching/requests.py:66-73 | several holders' values become the list of these values exactly when the first is no list itself |
| Parameters.FoldUpdatesKeepsLast | mlserver/batching/requests.py:35-45 | merging by overwriting keeps of each key the last value that anyone holds |
| Batching.MergedHeadCollectsParameters | mlserver/batching/requests.py:158-167 | a merged head has a parameter exactly when one of its requests has, with the values collected in request order |
| Batching.MergedKeepsLastParameters | mlserver/batching/requests.py:121-148 | the merged request has a parameter exactly when one of its requests has, with the last value, and no parameters at all when none has any |
| Batching.MergedAsksForEachOutputOnce | mlserver/batching/requests.py:127-145 | the merged request asks for exactly the outputs that one of its requests asks for, each once, and says nothing about outputs exactly when none of them does |
| RequestedOutputs.MergedOutputKeepsLastWanted | mlserver/batching/requests.py:182-194 | a merged output has a parameter exactly when some request gives it one the last time it asks for that output, with the value of the last such request |
| MergedInputs.MergeableExactly | mlserver/batching/requests.py:150-180 | requests can be merged exactly when the inputs of every name have an axis and are of one payload kind |
| MergedInputs.MergedInputIsJoined | mlserver/batching/requests.py:150-180 | for any requests, a merged input has type, kind and trailing dimensions of the first input of its name, and the rows and items of all of them in request order |
| MergedInputs.MergedInOrder | mlserver/batching/requests.py:115-148 | merged inputs and outputs come in the order in which the requests name them first, and the merged request has no id |
| Batching.BatchedRequests.constructor | mlserver/batching/requests.py:99-113 | the object holds the ids, minibatch sizes and merged request of its requests, and every minibatch has a known id |
| Batching.BatchedRequests.MergeRequests | mlserver/batching/requests.py:115-148 | the merged request has the merged heads, the merged requested outputs if any request says which it wants, and the last parameters; ids and sizes are filled |
| Batching.BatchedRequests.IndexRequests | mlserver/batching/requests.py:117-130 | the loop over requests fills the external ids, both indices by name and request, and the request-level parameters |
| Batching.BatchedRequests.IndexRequest | mlserver/batching/requests.py:125-126 | every input of a request is filed under its head and id; a repeated head keeps the last |
| Batching.BatchedRequests.MergeIndexed | mlserver/batching/requests.py:132-135 | every head is merged, in index order, and the sizes are those of all heads, later ones winning |
| Batching.BatchedRequests.MergeRequestInputs | mlserver/batching/requests.py:150-180 | one head's data is joined in request order, its parameters are folded, its batch size is the sum, and each id's minibatch size is set |
| Batching.BatchedRequests.MergeRequestOutput | mlserver/batching/requests.py:182-194 | one requested output has the last value anyone gives for each of its parameters |
| Batching.BatchedRequests.SplitResponse | mlserver/batching/requests.py:196-216 | every known id gets one response under its external id with its part of every output in output order; nothing at all when there are no outputs |
| Batching.BatchedRequests.AddPart | mlserver/batching/requests.py:205-214 | a request's response is opened on its first output, and the part is appended; no other response changes |
| Batching.BatchedRequests.AddParts | mlserver/batching/requests.py:205-214 | one output is appended to the response of every request |
| Batching.BatchedRequests.SplitResponseOutput | mlserver/batching/requests.py:218-242 | every id's part has its own minibatch size as leading dimension and its slice as data; outputs have no parameters here |
| Batching.BatchedRequests.SplitData | mlserver/batching/requests.py:244-257 | the running offset cuts the data into consecutive slices of minibatch size times element size |
| Batching.SlicesTileData | mlserver/batching/requests.py:252-255 | the slices put together are the data up to the last offset, whatever its length: nothing lost, repeated or moved |
| Batching.SliceFillsItsShape | mlserver/batching/requests.py:226-229 | each slice has as many items as the product of its rewritten shape, when the response has data for all |
| Batching.AnsweredExactlyTheIdsWithInputs | mlserver/batching/requests.py:121-163 | the ids the splitter knows are exactly those of requests with an input |
| Batching.SizesAreDistinctKnownIds | mlserver/batching/requests.py:107-113 | no id has two minibatch sizes, and each has an external id |
| Transparency.FlatDataFillsItsShape | mlserver/batching/requests.py:251-253 | data that is flat holds as many items as the product of its shape |
| Transparency.IndexIsColumns | mlserver/batching/requests.py:121-125 | for requests of one schema the index has one full column per head, in request order |
| Transparency.MergingKeepsContentType | mlserver/batching/requests.py:158-167 | requests that agree on a head's content type keep it when they are merged |
| Transparency.ColumnMerges | mlserver/batching/requests.py:150-180 | a merged head has its parts' type, content type included, and is cut into rows exactly as they are, one after the other |
| Transparency.MergedSchema | mlserver/batching/requests.py:150-180 | merging requests of one schema gives a request of that schema with the sum of their rows |
| Transparency.MergedRows | mlserver/batching/requests.py:133-180 | the rows of the merged request are the rows of the requests, one request after the other |
| Transparency.SizesAreRowCounts | mlserver/batching/requests.py:159-164 | the minibatch sizes are the requests' row counts, in request order |
| Transparency.SliceIsOwnData | mlserver/batching/requests.py:244-257 | the slice at a request's offset is what the model computes from that request's rows alone |
| Transparency.BatchingIsTransparent | mlserver/batching/requests.py:98-257 | batching transparency: for any compatible requests and any row-wise model, which may decode by each head's content type, splitting the batched response gives every id the response to its own request |
| AdaptiveBatching.FittingRequestsMerge | mlserver/batching/requests.py:150-180 | requests whose heads have an axis and one payload kind can be merged in any selection |
| AdaptiveBatching.StepKeepsQueue | mlserver/batching/adaptive.py:47-147 | every step keeps FIFO order, batch and queue bounds, and the single live batcher |
| AdaptiveBatching.EveryRunIsFifo | mlserver/batching/adaptive.py:38-147 | in every run, dispatched batches, batch in hand and queue are the admission order; batches have 1 to max_batch_size requests; a non-empty queue has exactly one live batcher |
| AdaptiveBatching.BatcherProgresses | mlserver/batching/adaptive.py:120-147 | without arrivals the batcher's next step is possible and lowers a measure |
| AdaptiveBatching.DrainDispatchesEverything | mlserver/batching/adaptive.py:75-83 | left alone, the batcher empties the queue, and every admitted request is in exactly one batch, in order |
| AdaptiveBatching.BatcherLeavesFuturesAlone | mlserver/batching/adaptive.py:100-140 | batcher steps touch no future and only add batches |
| AdaptiveProgress.OnlyTimeoutsCutShort | mlserver/batching/adaptive.py:120-147 | in every run, the batcher takes all there is in the queue, and every batch goes out full but for the one in hand at a timeout |
| AdaptiveProgress.AllCanBeServed | mlserver/batching/adaptive.py:33-147 | for any fitting requests with different ids there is a run that admits them all, in order, and hands every one over in a batch |
| AdaptiveFutures.SettledIds | mlserver/batching/adaptive.py:110-118 | an error reaches every request of the batch, an answer with outputs exactly those with an input, one without outputs nobody |
| AdaptiveFutures.CompletionFindsPending | mlserver/batching/adaptive.py:110-118 | whatever a completion sets is pending just before, so that no future is set twice |
| AdaptiveFutures.EveryRunKeepsFutures | mlserver/batching/adaptive.py:66-118 | in every run, a settled future holds what its batch gave it, and every other admitted request's future is pending |
| AdaptiveFutures.CompletionAnswersEachCallerOnce | mlserver/batching/adaptive.py:110-118 | in every run, a completion sets exactly the futures of its batch it should, from pending, and changes no other |
| AdaptiveFailures.ErrorReachesTheWholeBatch | mlserver/batching/adaptive.py:116-118 | in every run, when the prediction of a batch raises, every caller of the batch gets that very error |
| AdaptiveFailures.ShapelessAnswerFailsTheWholeBatch | mlserver/batching/adaptive.py:110-118 | and the error of taking the first of no dimensions, when an output has no axis |
| AdaptiveFailures.FailureComesFromItsBatch | mlserver/batching/adaptive.py:110-118 | in every run, a caller's future holds an error exactly when its own batch has ended with that error |
| AdaptiveFailures.ResultComesFromItsBatch | mlserver/batching/adaptive.py:110-118 | in every run, a result in a caller's future is a part of the response to its own batch, under the external id of its own request |
| AdaptiveFutures.DoneStaysDone | mlserver/batching/adaptive.py:66-73 | a done future keeps its value until its caller takes it, and does not come back |
| AdaptiveFutures.LeftPendingExactly | mlserver/batching/adaptive.py:110-118 | exactly who is still waiting after its batch has ended |
| AdaptiveFutures.HonestRunsReachHonestStates | mlserver/batching/adaptive.py:100-118 | runs in which the model answers each batch by its prediction only record such answers |
| AdaptiveFutures.EveryCallerGetsItsOwnPrediction | mlserver/batching/adaptive.py:33-118 | over every interleaving, a caller's result is the model's response to that caller's request alone |
| AdaptiveBatcherClass.AdaptiveBatcher.Predict | mlserver/batching/adaptive.py:33-59 | put, future registration and starting the batcher are one step of the state machine |
| AdaptiveBatcherClass.AdaptiveBatcher.StartBatcherIfNeeded | mlserver/batching/adaptive.py:75-83 | a batcher is created exactly when none is live |
| AdaptiveBatcherClass.AdaptiveBatcher.FillBatch | mlserver/batching/adaptive.py:126-135 | the inner loop takes requests from the queue until the batch is full or the queue is empty |
| AdaptiveBatcherClass.AdaptiveBatcher.BatchRequests | mlserver/batching/adaptive.py:120-140 | the outer loop, from its test to its next wait or its end |
| AdaptiveBatcherClass.AdaptiveBatcher.RunBatcherTask | mlserver/batching/adaptive.py:100-108 | the batcher's first run is the machine's step and keeps all invariants |
| AdaptiveBatcherClass.AdaptiveBatcher.OnRequest | mlserver/batching/adaptive.py:126-147 | a returning get continues the batch in hand |
| AdaptiveBatcherClass.AdaptiveBatcher.OnTimeout | mlserver/batching/adaptive.py:136-140 | a timeout dispatches what is in hand |
| AdaptiveBatcherClass.AdaptiveBatcher.PredictCallback | mlserver/batching/adaptive.py:110-118 | the callback sets each future of its batch, always a pending one, to its part or to the error |
| AdaptiveBatcherClass.AdaptiveBatcher.WaitResponse | mlserver/batching/adaptive.py:66-73 | the caller gets the outcome of its own future, which is removed |
| AsyncResponding.ScheduleMirrors | mlserver/parallel/dispatcher.py:61-81 | tracking a fresh message keeps the maps mutually inverse |
| AsyncResponding.ClearMirrors | mlserver/parallel/dispatcher.py:92-95 | clearing a message keeps them so |
| AsyncResponding.CancelCompletesInFlight | mlserver/parallel/dispatcher.py:113-129 | cancelling a worker schedules a completion for each of its messages, and forgets none of the others |
| AsyncResponding.RunAllCompletes | mlserver/parallel/dispatcher.py:103-129 | a future with a scheduled completion is done once the event loop has caught up |
| AsyncResponding.AsyncResponses.ScheduleMessage | mlserver/parallel/dispatcher.py:61-77 | the method computes the tracking function and keeps the maps inverse |
| AsyncResponding.AsyncResponses.TrackMessage | mlserver/parallel/dispatcher.py:79-81 | both maps get the message, and nothing else changes |
| AsyncResponding.AsyncResponses.ClearWaited | mlserver/parallel/dispatcher.py:83-95 | the waiter gets the outcome, and its message leaves all maps |
| AsyncResponding.AsyncResponses.ResolveResponse | mlserver/parallel/dispatcher.py:97-111 | a response with an exception schedules that exception, one without its result, and an unknown id raises |
| AsyncResponding.AsyncResponses.CancelWorker | mlserver/parallel/dispatcher.py:113-129 | the loop schedules one completion per in-flight message of the worker, each once |
| AsyncResponding.AsyncResponses.RunScheduled | mlserver/parallel/dispatcher.py:103-111 | the loop's turn completes a pending future and ignores a done or forgotten one |
| PoolProtocol.StepKeepsRotation | mlserver/parallel/dispatcher.py:143-176 | every step keeps the rotation within the shared dict, without repeats |
| PoolProtocol.PickFindsAWorker | mlserver/parallel/dispatcher.py:217-223 | in every run, a pick from a non-empty rotation finds a worker |
| PoolProtocol.LoadedEverywhere | mlserver/parallel/dispatcher.py:225-234 | a load that ends well has been answered with a result by every worker past the lock |
| PoolProtocol.StepKeepsLoads | mlserver/parallel/pool.py:137-181 | every step keeps it that every worker past the lock has answered the load of each established model with a result, or is replaying it |
| PoolProtocol.StepKeepsSent | mlserver/parallel/pool.py:146-157 | every step keeps it that what was answered was sent, and that each replay was sent or is queued |
| PoolProtocol.StepKeepsCrash | mlserver/parallel/dispatcher.py:97-176 | every step keeps the maps inverse, workers that died past the lock out of the dict, and messages tracked before their worker's death on their way to completion |
| PoolProtocol.EveryRunKeepsPool | mlserver/parallel/pool.py:115-191 | all invariants hold in every run |
| PoolProtocol.EveryRunMirrors | mlserver/parallel/dispatcher.py:28-37 | in every run the in-flight maps are mutually inverse |
| PoolProtocol.NoLostLoad | mlserver/parallel/pool.py:137-174 | in every run, a ready worker has been sent the load of every established model and has answered it with a result, and one that is replaying has, or will replay it |
| PoolProtocol.TrackedUntilReturned | mlserver/parallel/dispatcher.py:51-95 | in every run the tracked messages are exactly those whose sender has not returned, so that no map holds any id once all have |
| PoolProtocol.EachFutureCompletesOnce | mlserver/parallel/dispatcher.py:83-129 | in every run, a done future keeps its outcome until it is taken, also when a late response follows the cancellation, and a message is never tracked again |
| PoolOutcomes.OutcomeIsItsOwn | mlserver/parallel/dispatcher.py:83-129 | in every run, what a sender finds is the payload or the exception of a response to its own message, the exit code of the worker that was serving it, or its own cancellation |
| PoolTurns.StepKeepsTurns | mlserver/parallel/dispatcher.py:225-244 | every step keeps it that no message of the update under the lock ends before all of its fan-out has had its turn, and that every worker's part of it is queued, in flight, answered or broken |
| PoolTurns.EndedUpdateWasSent | mlserver/parallel/dispatcher.py:229-244 | in every run, an update that ends, well or not, has been sent to every worker that was in the dict when it began |
| PoolTurns.EntersRotationExactly | mlserver/parallel/dispatcher.py:160-176 | in every run, a worker gets into rotation exactly when it is in the dict as another one dies or as some worker is ready, whether it has the lock or not |
| PoolCrashes.TrackedBeforeDeathCompletes | mlserver/parallel/dispatcher.py:113-176 | in every run, every in-flight message, request or update, that was tracked before its worker died completes |
| PoolCrashes.NoRequestForTheDead | mlserver/parallel/dispatcher.py:209-223 | no later request is assigned to a worker that died past the lock |
| PoolCrashes.NoOrphanedRequest | mlserver/parallel/dispatcher.py:166-176 | so that every in-flight request of such a worker completes |
| PoolCrashes.DeathLeavesOthersAlone | mlserver/parallel/dispatcher.py:113-129 | a death only schedules completions, and only for the dead worker's messages |
| PoolCrashes.CompletesExactlyIfTrackedAlive | mlserver/parallel/dispatcher.py:97-244 | in any continuation without a response or a cancellation, an in-flight request or update of a dead worker completes exactly if the worker was alive when the message was tracked |
| PoolCrashes.CompletesExactlyUnlessLate | mlserver/parallel/dispatcher.py:97-244 | the same for every run as a whole: it completes exactly unless it was tracked after the death |
| PoolCrashes.DeadReturnsExactlyIfItDiedStarting | mlserver/parallel/dispatcher.py:148-158 | a dead worker can get back into the dict exactly when it died while waiting for the lock |
| PoolUpdates.LastUpdateIsTheRegisteredLoad | mlserver/parallel/pool.py:137-191 | in every run, the last update a ready worker was sent about an established model is the load of its registered settings, while no update of it holds the lock or has failed |
| PoolUpdates.FailedUpdateBreaksExactly | mlserver/parallel/dispatcher.py:225-234 | in every run, an update that fails is the last thing every worker past the lock was told about its model, so that it breaks that exactly unless it is a load of the very settings |
| PoolUpdates.UnloadedIsNotReplayed | mlserver/parallel/pool.py:144-157 | a model whose unload ended well is not replayed to a restarted worker until a load or reload of it begins |
| PoolUpdates.ReloadKeepsLoadsExactlyIfLoadedBefore | mlserver/parallel/pool.py:176-181 | registering ahead of the fan-out keeps it that ready workers have loaded the registry exactly when they had loaded these settings, and those of other reloads that are ahead |
| PoolHistories.EarlyExactly | mlserver/parallel/pool.py:176-181 | in every run, settings count as not established exactly when a reload has registered them and no load of them has ended well since |
| PoolHistories.FailedExactly | mlserver/parallel/dispatcher.py:225-234 | in every run, a worker and a model count as failed exactly when an update of the model has failed with the worker past the lock, and none has ended well since |
| PoolRuns.RequestToTheDeadIsOrphaned | mlserver/parallel/pool.py:115-164 | from a pool of two workers, a run in which an inference request is picked for a dead worker, and waits as long as nobody answers or cancels it |
| PoolRuns.FailedUnloadLeavesItRegistered | mlserver/parallel/pool.py:183-191 | from a pool of two workers, a run after which a model is registered that the worker left has unloaded |
| PoolRuns.RequestBeforeReplay | mlserver/parallel/dispatcher.py:166-176 | from a pool of two workers, a run after which the next request goes to a worker that still waits for the lock and was never sent the model that is registered |
| RoundRobin.WrapIsMod | mlserver/parallel/dispatcher.py:143-146 | cycling over n items is counting modulo n |
| RoundRobin.PicksAreVisits | mlserver/parallel/dispatcher.py:217-223 | how often a position is picked in any stretch of picks |
| RoundRobin.EveryWorkerGetsItsShare | mlserver/parallel/dispatcher.py:217-223 | of k consecutive picks every one of n workers gets k/n rounded down or up |
| RoundRobin.RunsShareRequestsEvenly | mlserver/parallel/dispatcher.py:209-223 | the same for the requests of any run without a reset, whatever is interleaved |
| InferencePooling.Dispatcher.OnWorkerReady | mlserver/parallel/dispatcher.py:160-164 | the rotation is a snapshot of the dict again |
| InferencePooling.Dispatcher.OnWorkerStop | mlserver/parallel/dispatcher.py:166-176 | the worker leaves dict and rotation, and what it was serving is cancelled |
| InferencePooling.Dispatcher.DispatchRequest | mlserver/parallel/dispatcher.py:209-223 | the picked worker is in the dict, and the message is tracked for it |
| InferencePooling.Dispatcher.DispatchUpdate | mlserver/parallel/dispatcher.py:225-234 | the fan-out covers the workers of the moment, under the lock |
| InferencePooling.Dispatcher.UpdateTasks | mlserver/parallel/dispatcher.py:229-233 | one task per worker |
| InferencePooling.Dispatcher.DispatchUpdateToWorker | mlserver/parallel/dispatcher.py:236-244 | the oldest task sends its update and tracks it |
| InferencePooling.InferencePool.OnWorkerStop | mlserver/parallel/pool.py:115-135 | a foreign pid changes nothing; one's own leaves the dict shared with the dispatcher, so that the pool's own deletion finds nothing left |
| InferencePooling.InferencePool.SpawnWorker | mlserver/parallel/pool.py:137-144 | from its start, a new worker is reached by every fan-out; at that moment it is not in rotation |
| InferencePooling.InferencePool.ReplayModels | mlserver/parallel/pool.py:144-157 | past the lock, one replay task per registered model, in the registry's order |
| InferencePooling.InferencePool.FinishUpdate | mlserver/parallel/pool.py:166-191 | once a load has ended well, all workers past the lock have answered it and whoever gets the lock replays it; once an unload has, nobody replays the model; a failed update changes no registration |
| InferencePooling.InferencePool.RegisterReload | mlserver/parallel/pool.py:176-181 | a worker that gets the lock before the fan-out replays the new settings and, under another key, the old ones no more |
| ModelVersions.LessIsTotal | mlserver/registry.py:43-48 | string comparison is a strict total order |
| ModelVersions.CompareIsAntisymmetric | mlserver/registry.py:38-48 | the comparison is reflexive and antisymmetric in sign on all versions |
| ModelVersions.CompareIsTransitive | mlserver/registry.py:38-48 | it is transitive among versions that are all integers or all not |
| ModelVersions.IntegersAreRead | mlserver/registry.py:38-40 | the text of any integer, negative ones included, is read as that integer, up to the limit on digits |
| ModelVersions.IntegerVersionsCompareByValue | mlserver/registry.py:38-42 | integer versions compare by value, not by text |
| ModelVersions.MixedVersionsCycle | mlserver/registry.py:38-48 | mixed versions can beat one another in a circle |
| VersionText.LessAtFirstDifference | mlserver/registry.py:43-48 | strings compare by the first place where they differ, and a prefix is less |
| VersionText.OtherVersionsCompareByText | mlserver/registry.py:31-48 | versions of which one is no integer compare by their text, and a missing version is newer than any |
| VersionText.IntegerTextIsRead | mlserver/registry.py:38-40 | white space, a sign, digits with single underscores between them, at most 4300 of them, and white space are read as the value of the digits, negated after a minus |
| VersionText.IntegersAreExactly | mlserver/registry.py:38-40 | no other text is an integer |
| Registry.RegisterKeepsCoherence | mlserver/registry.py:268-272 | registering files the model under its version and keeps the cached default coherent |
| Registry.DropKeepsCoherence | mlserver/registry.py:217-238 | unloading a stored model removes it and never leaves it as default |
| Registry.FailedHookKeepsCoherenceExactly | mlserver/registry.py:170-186 | a raising hook keeps coherence exactly when no earlier hook replaced the model, or it has no version, or the cached default has none or is a newer one |
| Registry.StepKeepsCoherenceExactly | mlserver/registry.py:148-238 | every operation keeps coherence except exactly such a load |
| Registry.RunsAreCoherentExactly | mlserver/registry.py:148-272 | a sequential run keeps every entry under its own version and the default none, unversioned, or the very object stored, exactly if none of its loads leaves a stale default |
| Registry.EveryRunIsSettled | mlserver/registry.py:148-272 | in every run, whatever hooks do, entries are filed under their versions, and under the cached default's version there is no other model |
| Registry.UnloadedIsGoneExactly | mlserver/registry.py:213-238 | in every run, an unload of a model that is found fails on a missing key exactly when the default is asked for and stale; otherwise the model is not found again |
| Registry.RaisingHookLeavesStaleDefault | mlserver/registry.py:164-186 | a first load on an empty registry after which the default is stale |
| Registry.ModelsHaveOwnVersions | mlserver/registry.py:257-266 | get_models lists no version twice, and stored models only besides the unversioned default |
| RegistryLookups.LoadedVersionIsFound | mlserver/registry.py:148-202 | in every run, after a load that ends well, first or again, a lookup of the version finds what the hooks have made of the model, and a lookup of another version what it found before |
| RegistryLookups.FirstLoadIsDefaultExactly | mlserver/registry.py:164-186 | in every run, what a first load leaves is the default exactly when the cache was empty or held a version that is no newer; otherwise the default is what it was |
| RegistryLookups.ReplacedModelIsGone | mlserver/registry.py:164-186 | in every run, a model that the hooks of its first load have replaced is found under no version and not listed |
| RegistryLookups.ReloadIsDefaultExactly | mlserver/registry.py:188-202 | the same for a version that is loaded again, if the hooks return another object than the one replaced |
| RegistryLookups.UnnamedReloadIsDefaultExactly | mlserver/registry.py:188-202 | what is loaded without a version in place of the default becomes the default, if it is another object |
| RegistryLookups.UnloadTakesOneVersion | mlserver/registry.py:213-238 | in every run, an unload that does not fail takes the model out of its version and no other, and the default changes only if it was that model or was not known |
| RegistryLookups.RefreshingFindsTheSame | mlserver/registry.py:109-146 | refreshing without a new model fills the cache and changes nothing that a lookup finds |
| RegistryDefaults.LatestIsFirstMaximal | mlserver/registry.py:97-104 | recomputing finds the first of the maximal versions |
| RegistryDefaults.RegisterKeepsMaximalExactly | mlserver/registry.py:109-136 | registering keeps the default maximal exactly when the cache is filled or no stored version is newer |
| RegistryDefaults.StepKeepsMaximal | mlserver/registry.py:90-238 | every operation that does not load a version on an empty cache keeps the default maximal |
| RegistryDefaults.CachedDefaultTiesWithRecomputed | mlserver/registry.py:90-104 | a maximal default that is not stale ties with the recomputed one |
| RegistryDefaults.IncrementalDefaultRefinesRecomputed | mlserver/registry.py:90-146 | over runs that read the default after it was cleared, the default found is unversioned or maximal, and ties with recomputing it unless it is stale |
| RegistryDefaults.UnversionedDefaultStays | mlserver/registry.py:126-129 | no operation on a named version changes a default without version |
| RegistryDefaults.FailedLoadLeavesVersions | mlserver/registry.py:164-186 | a first load that raises leaves the stored versions as they were |
| RegistryDefaults.FailedLoadLeavesModelExactly | mlserver/registry.py:164-186 | the model of a first load that raises is still found exactly when a hook raises after an earlier one has replaced it and it had become the default, and is listed exactly if it has no version, too; what a hook has made of it is not found |
| RegistryDefaults.UnversionedLoadReplacesVersionedDefault | mlserver/registry.py:148-202 | loading without a version replaces a versioned default and leaves its entry listed |
| RegistryObjects.SingleModelRegistry.GetDefault | mlserver/registry.py:90-104 | reading the property fills the cache with the latest version |
| RegistryObjects.SingleModelRegistry.LatestModel | mlserver/registry.py:100-102 | the scan keeps the first best model |
| RegistryObjects.SingleModelRegistry.Refresh | mlserver/registry.py:109-146 | the branches with and without a new model |
| RegistryObjects.SingleModelRegistry.RegisterModel | mlserver/registry.py:268-272 | storing and refreshing |
| RegistryObjects.SingleModelRegistry.Lookup | mlserver/registry.py:240-247 | a named version is looked up, anything else is the default |
| RegistryObjects.SingleModelRegistry.LoadNew | mlserver/registry.py:164-186 | registry and readiness after a first load, for each of its ends; once loaded, a lookup of the version finds what the hooks returned, as ready as `load` says |
| RegistryObjects.SingleModelRegistry.Replace | mlserver/registry.py:195-199 | once loaded, the new model is what a lookup of its version finds, also when it has none and takes the place of a default without version |
| RegistryObjects.SingleModelRegistry.LoadVersion | mlserver/registry.py:148-202 | registry and readiness of old and new model after load, first or again, for each of its ends; once loaded, a lookup of the version finds the new model |
| RegistryObjects.SingleModelRegistry.UnloadModel | mlserver/registry.py:217-238 | registry and readiness after an unload, or a KeyError before any change |
| RegistryObjects.SingleModelRegistry.UnloadOne | mlserver/registry.py:213-215 | unload of a version that is found, or nothing; it fails on a missing key exactly when the default is asked for and stale |
| RegistryObjects.SingleModelRegistry.UnloadAll | mlserver/registry.py:204-211 | every model is dropped without KeyError and the registry is empty |
| RegistryObjects.SingleModelRegistry.GetModels | mlserver/registry.py:257-266 | all stored models, then an unversioned default |
| RegistryObjects.RollingReload | mlserver/registry.py:188-202 | during a same-version reload, with or without a version, whose load returns true, a lookup of the version finds a ready model at every waiting point |
| RegistryObjects.RaisingReloadChangesNothing | mlserver/registry.py:188-197 | a reload that raises leaves versions and default as a lookup finds them |
| RepositorySync.LoadAllKeys | mlserver/handlers/model_repository.py:65-71 | after the loads, the named versions are the old and the listed ones |
| RepositorySync.RaisingPassKeys | mlserver/handlers/model_repository.py:65-71 | a pass that ends where a load raises has loaded the versions listed before it, and lost none |
| RepositorySync.LoadAllKind | mlserver/registry.py:109-202 | what kind of default the loads leave, from the kind before, the versions listed, and which hooks return the default itself |
| RepositorySync.DropNamed | mlserver/handlers/model_repository.py:74-78 | the second loop removes exactly the stale named versions it has passed, and no unversioned default |
| RepositorySync.HeldAfterSync | mlserver/handlers/model_repository.py:62-80 | a key is held after the pass exactly when it is listed and was held after the loads |
| RepositorySync.SyncHoldsListedKeysExactly | mlserver/handlers/model_repository.py:62-80 | the keys held after the pass are the listed ones exactly when a listed model without version survives the loads; never any other |
| RepositorySync.SyncHoldsListedKeys | mlserver/handlers/model_repository.py:62-80 | they always are when no listed version is the empty string and no hook of a model without version returns the default |
| RepositorySync.EmptyVersionIsLost | mlserver/handlers/model_repository.py:62-80 | an empty version listed before a named one is not held afterwards |
| RepositoryHandlers.MultiModelRegistry.LoadModel | mlserver/registry.py:321-331 | a name's registry is made on first use and loads; other names are unchanged |
| RepositoryHandlers.MultiModelRegistry.UnloadOne | mlserver/registry.py:338-342 | a name whose registry has become empty is removed; other names are unchanged |
| RepositoryHandlers.MultiModelRegistry.UnloadAll | mlserver/registry.py:333-336 | an unknown name changes nothing; afterwards no lookup under the name finds a model, and lookups under other names find what they did |
| RepositoryHandlers.MultiModelRegistry.GetModels | mlserver/registry.py:348-357 | the models of a name, or ModelNotFound |
| RepositoryHandlers.StaleIsFound | mlserver/handlers/model_repository.py:74-78 | every model the second loop unloads is still there |
| RepositoryHandlers.ModelRepositoryHandlers.LoadFromRepository | mlserver/handlers/model_repository.py:62-80 | the two loops compute the pass, a load that raises ends it with nothing unloaded, other names are unchanged, and the keys held are the listed ones when none is empty and no hook returns the default |
| RepositoryHandlers.ModelRepositoryHandlers.LoadListedModels | mlserver/handlers/model_repository.py:65-71 | the first loop loads what is listed, up to a load that raises, and collects the keys |
| RepositoryHandlers.ModelRepositoryHandlers.DropStaleModels | mlserver/handlers/model_repository.py:74-78 | the second loop never meets ModelNotFound |
| RawBytes.LeNatOfLeBytes | mlserver/raw.py:26 | a number that fits its width is read back from its little-endian bytes |
| RawBytes.LeBytesOfLeNat | mlserver/raw.py:26 | bytes are written back from the number they stand for |
| RawBytes.FourBytesAreLittleEndian | mlserver/raw.py:26 | the length field has its least significant byte first |
| RawBytes.UnpackUndoesPack | mlserver/raw.py:39-70 | unpacking what was packed gives the list, for all byte strings shorter than 2^32 |
| RawBytes.PackUndoesUnpack | mlserver/raw.py:39-70 | packing what was unpacked gives the buffer, for every buffer that is accepted |
| RawBytes.UnpacksIffPacked | mlserver/raw.py:39-70 | the accepted buffers are exactly the packed ones |
| RawBytes.UnpackBytesLoop | mlserver/raw.py:39-55 | the offset loop ends, raises on any cut-short frame, and otherwise gives a list that packs to the buffer |
| RawBytes.PackBytesLoop | mlserver/raw.py:58-70 | the loop gives a buffer that unpacks to the list, or the error of the first element that cannot be written |
| RawTensors.DecodeOfEncodeNumber | mlserver/raw.py:11-24 | every number in range of a signed or unsigned width is read back |
| RawTensors.EncodeOfDecodeNumber | mlserver/raw.py:11-24 | every byte string of a width is a number in range that is written back to it |
| RawTensors.EncodesModuloSpan | mlserver/raw.py:11-24 | the bytes of a number are those of the natural number congruent to it (two's complement) |
| RawTensors.UnpackUndoesPackExactly | mlserver/raw.py:29-101 | a packed tensor unpacks to its data exactly when a bool tensor holds only 0 and 1 |
| RawTensors.PackUndoesUnpackExactly | mlserver/raw.py:80-101 | an unpacked tensor packs to its bytes exactly when a bool tensor's bytes are 0 and 1 |
| RawFormats.PackTakesExactly | mlserver/raw.py:11-24 | for every datatype, the range of numbers it takes |
| RawFormats.PackWrites | mlserver/raw.py:11-24 | for every datatype, the bytes of a number, lowest first, negative ones in two's complement |
| RawFormats.PackTakesBlobs | mlserver/raw.py:11-24 | byte strings are taken by bool formats alone |
| RawFormats.PacksExactly | mlserver/raw.py:29-36 | a tensor packs exactly when it has as many values as its shape says and each of them packs |
| RawFormats.PackConcatenates | mlserver/raw.py:85-87 | the bytes of two lists of values follow one another |
| RawFormats.UnpackTakesExactly | mlserver/raw.py:80-82 | for every datatype, the exact length of the buffers that are accepted |
| RawFormats.FrameLayout | mlserver/raw.py:58-70 | an element of a BYTES tensor is its length as four bytes, lowest first, and its bytes; from 2^32 bytes on it raises |
| RawFormats.FramesFollow | mlserver/raw.py:58-70 | elements follow one another, and the first that cannot be written decides the error |
| RawFormats.NumbersHaveNoFrame | mlserver/raw.py:58-70 | a number in a BYTES tensor raises a type error |
| RawFormats.CutShortIsStructError | mlserver/raw.py:39-55 | whatever is cut short raises a struct error |
| RawTensors.Tensor.TakeRaw | mlserver/raw.py:122-125 | one tensor's data leaves as bytes, or it raises untouched |
| RawTensors.Tensor.FillFrom | mlserver/raw.py:109-115 | an empty tensor takes the next raw entry, a filled one keeps its data, errors change nothing |
| RawTensors.ExtractRaw | mlserver/raw.py:120-127 | one tensor after the other gives up its data, also one that the list holds twice, up to the first that does not pack; without repeats, what `RawTensors.ExtractsEveryTensor` says |
| RawTensors.ExtractsEveryTensor | mlserver/raw.py:120-127 | if no tensor is in the list twice, all data leaves in order and every tensor is empty; on an error those before it are empty and the rest untouched |
| RawTensors.InjectRaw | mlserver/raw.py:104-117 | one tensor after the other takes the next raw entry if it is empty, also one that the list holds twice, up to the first that raises; without repeats, what `RawTensors.InjectsEmptyTensors` says |
| RawTensors.InjectsEmptyTensors | mlserver/raw.py:104-117 | if no tensor is in the list twice, the k-th empty tensor gets the k-th raw entry and filled tensors are unchanged, up to the first that raises |
| RawTensors.InjectUndoesExtractExactly | mlserver/raw.py:104-127 | injecting what was extracted restores every tensor, exactly when the bool tensors are canonical |
| RawTensors.ExtractUndoesInjectExactly | mlserver/raw.py:104-127 | extracting what was injected into empty tensors restores the raw entries, exactly when those of bool tensors are canonical |
| RawTensors.InjectSucceedsExactly | mlserver/raw.py:104-117 | injection succeeds exactly when there is an entry for every empty tensor and each unpacks |
| RawFormats.InjectErrorsExactly | mlserver/raw.py:104-117 | injection raises an index error exactly when an empty tensor has no entry, and a struct error exactly when an entry does not unpack for its tensor |
| BatchItems.PreprocessItems | mlserver/batch_processing.py:197-227 | requests and indices by id, later ones winning, an error item per invalid line, and the single request's id for the merged one; one line that is no JSON raises for the whole batch, and so does the encoding |
| BatchItems.ProcessItems | mlserver/batch_processing.py:284-326 | the outputs of a batch for each end of sending, or that it raises: in preparing, encoding, decoding or splitting |
| BatchItems.CollectedUnder | mlserver/batch_processing.py:203-210 | under an id are the request as read, with that id, and the index of the last line that has the id or was given it |
| BatchItems.RequestsCarryTheirIds | mlserver/batch_processing.py:205-210 | every request that is sent carries the id it is known by |
| BatchItems.NotReplacedIsLast | mlserver/batch_processing.py:205-210 | a request is the one that is sent under its id exactly when no later line has, or was given, the same id |
| BatchItems.PartsAreKnown | mlserver/batch_processing.py:230-255 | every part of the response has an index to go to |
| BatchConservation.LineIsAnsweredExactly | mlserver/batch_processing.py:197-326 | when a batch does not raise, exactly which of its lines get an output, by the ids in the lines |
| BatchConservation.EachLineIsAnsweredOnce | mlserver/batch_processing.py:230-326 | no line gets two outputs, and no other index appears |
| BatchConservation.BatchConservesExactly | mlserver/batch_processing.py:284-326 | outputs and lost lines add up to the batch, and nothing is lost exactly when every line is answered |
| BatchAnswers.InvalidLineGetsItsError | mlserver/batch_processing.py:211-215 | a line that fails validation gets its own error under its own index, however sending ends |
| BatchAnswers.RaisesExactly | mlserver/batch_processing.py:284-326 | exactly when processing a batch raises |
| BatchAnswers.FailureReachesEveryRequest | mlserver/batch_processing.py:314-319 | when sending fails for good, every request that was not replaced gets the error |
| BatchAnswers.LineGetsItsOwnPrediction | mlserver/batch_processing.py:197-255 | when a row-wise model answers the merged request, every line gets the model's response to its own request as read, under its own id or the one it was given |
| BatchPipeline.StepKeepsPlaces | mlserver/batch_processing.py:329-408 | only reading a line puts it somewhere; no other step duplicates or drops one |
| BatchPipeline.EveryRunKeepsInv | mlserver/batch_processing.py:329-408 | in every run every line read is in exactly one place, and the queues' unfinished counts are right |
| BatchPipeline.QueuesAreBounded | mlserver/batch_processing.py:481-482 | in every run, no queue holds more than two entries per consumer |
| BatchPipeline.DoneConserves | mlserver/batch_processing.py:483-514 | when both joins have returned, every line is exactly one of written, failed to be written, and lost |
| BatchPipeline.CleanBatchLosesNothing | mlserver/batch_processing.py:284-326 | a batch of mergeable requests with own ids and inputs loses nothing, also when lines are invalid or sending fails |
| BatchPipeline.CleanRunsWriteEveryLineOnce | mlserver/batch_processing.py:483-514 | for any number of lines and workers and any batch size, the written indices are a permutation of 0..n-1 and the counter is n |
| BatchPipeline.NeverStuck | mlserver/batch_processing.py:483-514 | until both joins have returned, some task can go on |
| BatchPipeline.StepsGetThere | mlserver/batch_processing.py:329-408 | every step of every run lowers a measure, so that runs end |
| BatchEndToEnd.OutputIsOwn | mlserver/batch_processing.py:284-326 | every output of a batch, whatever its end, is its line's own error, an inference error, or the model's response to that line's request, under its own id or the one it was given |
| BatchEndToEnd.EveryLineGetsItsOwnAnswer | mlserver/batch_processing.py:284-408 | over every interleaving, what is written for a line is its own validation error, an inference error, or the model's response to its request alone, under its own id or the one it was given; in runs that lose nothing, once per line |
| BatchTasks.CutsExactly | mlserver/batch_processing.py:332-342 | the cuts of a file are the one list of non-empty batches that make up the file, of which all but the last are full |
| BatchTasks.Produce | mlserver/batch_processing.py:329-342 | the loop over the lines puts the cuts of the file, in order |
| BatchTasks.ProducerPutsCuts | mlserver/batch_processing.py:329-342 | in every run of the pipeline, the batches put are the first cuts of the file, and all of them once producing is over |
| BatchTasks.Consume | mlserver/batch_processing.py:345-387 | the loop puts the outputs of the batches that do not raise, in order, counts every batch off once, and what it takes is what it puts and what its batches lose |
| BatchTasks.ConsumerConserves | mlserver/batch_processing.py:345-387 | for any batches and any ends of sending, what a consumer is given is what it hands on, and what its batches lose |
| BatchTasks.ConsumerRunsItsLoop | mlserver/batch_processing.py:345-387 | in every run, each consumer has put, or has in hand, what its loop puts for the batches it has finished |
| BatchTasks.Finalize | mlserver/batch_processing.py:390-408 | the loops write the items in order, but for those whose write raises, count every item, and count every batch off once |
| BatchTasks.FinalizerRunsItsLoop | mlserver/batch_processing.py:390-408 | in every run, what is written is what the loop writes of the items it has come to, the others are in its hands, and the counter is right |
| BatchQueues.InputsAreFifo | mlserver/batch_processing.py:329-387 | in every run, what consumers have taken and what is queued are the batches that were put, in order |
| BatchQueues.OutputsAreFifo | mlserver/batch_processing.py:383-408 | in every run, what the finalizer has taken and what is queued are the outputs that were put, in order |

## Left out

- REST, gRPC and Kafka servers, metrics, tracing, logging, settings and the CLI: plumbing over libraries.
- Runtimes and the NumPy, Pandas, datetime, base64, JSON and image codecs: they rest on foreign libraries.
- `_split_parameters`, `_get_parameters` and parameters of outputs: merging appends one value per request while splitting indexes by row offset, so that there is no round trip to state.
- Batching.BatchedRequests.SplitResponseOutput: outputs and their parts have no parameters, for the same reason.
- Request-level parameters and requested outputs are merged, but row models do not depend on them.
- Parameters are strings or lists of parameters; other JSON values are told apart by their text.
- Shapes and batch sizes are natural numbers; a negative dimension would slice from the end.
- Requests whose batch cannot be built (a head without an axis, payload kinds mixed within a head, a payload that is neither text, bytes nor list): `BatchedRequests` raises in the batcher task, whose crash path (mlserver/batching/adaptive.py:85-98) is not part of this model.
- Cancellation of callers in the adaptive batcher, and `max_batch_time` as a number: a timeout is an event that can happen whenever the batcher waits.
- Callers that wait for room in the queue: a request is admitted by one step once there is room.
- The delivery of messages to worker processes and what they do with them: sending is recorded, a response is an event that can come at any time, also twice or late.
- Closing the pool.
- Cancelling the caller of an update before its fan-out has had its turn.
- `WorkerRegistry` keys are taken as given: two name-version pairs that print alike are one key.
- Interleavings of registry operations on one model: runs of the registry are sequential.
- Parallel unload hooks, `model.unload()` that raises, and model contexts.
- `int()` on text beyond ASCII; the version order is stated for ASCII digits, signs, underscores and white space.
- Version sets that mix integers with other versions, beyond the cycle shown.
- RepositoryHandlers.MultiModelRegistry.LoadModel: holds the registry of a name as a value, so that readiness of the models is stated by the registry object in `RegistryObjects` and not repeated for the whole map.
- RepositoryHandlers.MultiModelRegistry.UnloadAll: states which models are found afterwards; that they are unloaded and no longer ready is stated by the registry object in `RegistryObjects`.
- RepositoryHandlers.ModelRepositoryHandlers.LoadFromRepository: hooks keep the settings of the models they return.
- InferencePooling.InferencePool.OnWorkerStop: ends before the stop hooks, which are the caller's code, and before its successor is started, which is `InferencePooling.InferencePool.SpawnWorker`.
- Strings in BYTES tensors: they are encoded as UTF-8 first; elements here are byte strings.
- Floating-point formats: a float is its bit pattern, so that rounding to a narrower format and NaN payloads are not modelled.
- Hosts whose native byte order is not little-endian or whose `long` has 32 bits.
- Retries and pauses of the offline client: sending ends in one answer or one error.
- How the merged request is encoded for the client (`TritonRequest.from_inference_request`) and its answer decoded: each succeeds or raises.
- `batch_index` and `inference_id` in the parameters of an offline output: the index is a field of the output item.
- `LocalCache`, middlewares, and the bookkeeping of pools per environment: easy, or file-system work.
