# A verified model of MediaPipe's graph engine

MediaPipe runs a graph of calculators. Packets travel along streams in timestamp
order; every input stream of a node is a queue with a bound on the next timestamp.
This project models the engine that moves packets, schedules nodes, detects that
nothing is left to do, holds back sources when queues are full, and checks a graph
before it runs. Threads appear as transition systems in which each critical section,
callback or executor call is one step, so that a statement about all executions is a
statement about all interleavings. What a class changes in place is a class here, and
each method is tied to a function on values that the transition systems use too.

The modules follow the source:

- `Timestamps`: clamped 64-bit arithmetic with eight reserved values.
- `InputStreams`: one input stream, and the history of what it accepted.
- `SyncSets`: the readiness decision of one set of streams. The default input stream
  handler is one such set over all streams of a node.
- `InputSynchronisation`: a node that reads its streams one at a time while producers
  go on adding. Main result: what the node is handed is a prefix of the full outer
  join of the accepted histories, so it does not depend on the interleaving.
- `Invocations`: calculator contexts and batching, on top of synchronisation: invocations
  get the synchronised input sets in their order, then Done.
- `NodeScheduling`: many threads, one scheduling thread, and no lost readiness change.
- `NodeSynchronisation`: the threads of `NodeScheduling` refine the single reader of
  `InputSynchronisation`, so its guarantees hold of a node under all its threads.
- `TaskQueues`: which item runs first, and exact accounting of items, submitted tasks and
  idle callbacks.
- `Throttling`: which sources are held back by full streams.
- `RunStates`: the state of a run as its history tells it, and the running counts.
- `IdleHandling`: the loop that quits, activates sources or breaks a deadlock; no source is
  left out.
- `Generators`: packet generators run concurrently to a least fixpoint, in two stages.
- `GraphValidation`: analyse, sort, analyse again; which graphs are accepted.
- `SourceDependence`: one pass that computes reachability.
- `PacketTypes`: union-find without path compression.
- `OutputStreams`: output bounds and their propagation to mirrors, which are given exactly
  what the calculator outputs.
- `OutputPropagation`: parallel invocations end in any order, and one thread at a time
  propagates their outputs in the order of their timestamps, losing none.
- `NodePropagation`: a node with parallel invocations as a whole. Main result: in every
  interleaving its outputs follow the join of its input streams, and its close comes last.
  What `NodeScheduling` asks of the contexts, and `OutputPropagation` of the scheduling
  thread, is derived here.

What is false of the code, or of its comments, is stated by a lemma:

- `NextAllowedInStream` does not CHECK its argument, although
  mediapipe/framework/timestamp.h:186 says so; the model follows the code
  (`Timestamps.NextTakesAnyTimestamp`).
- Subtracting the least 64-bit offset aborts, because the offset is negated first
  (`Timestamps.Minus`).
- A maximum queue size below -1 never makes a stream full, since the comparison is
  unsigned (`InputStreams.FullIsUnsignedComparison`).
- With timestamp bounds processed, a settled timestamp is not processed while the least
  bound is Min or PostStream (`SyncSets.BoundDrivenDecisionIsExact` has the exact
  condition, `SyncSets.BoundDrivenReadinessLags` a witness).
- Besides the four documented transitions of the scheduling state, a pending recheck may
  go straight to idle (`NodeScheduling.SchedulingTransitions` says exactly when,
  `NodeScheduling.PendingMayBecomeIdle` has an execution).
- Besides the eight transitions of the propagation state that are documented at
  mediapipe/framework/output_stream_handler.h:158-188, a pending change may lead back to
  propagating a bound (`OutputPropagation.PropagationTransitions` says exactly when,
  `OutputPropagation.PendingMayPropagateBound` has an execution).
- The comment at mediapipe/framework/scheduler_queue.h:87-94, that a count of 0 means idle
  queues, holds while the queues run and every item for an idle queue comes from an
  executing task (`TaskQueues.ZeroMeansQuiescent`). It fails without either condition:
  for an item that another thread adds to an idle queue, whether the queue was ever
  paused (`TaskQueues.PausedQueueQuiescesEarly`) or not
  (`TaskQueues.RunningQueueQuiescesEarly`), and for an item that an executing task adds
  to a paused queue (`TaskQueues.PausingQuiescesEarly`). Whenever the count is 0, every
  item that is added makes it wrong until its callback
  (`TaskQueues.AddingAtZeroGoesUnnoticed`).
- `HandleIdle` goes round for ever, holding its lock, when a source of a lower layer is
  not opened while a graph input is open (`IdleHandling.BlockedForEver`,
  `IdleHandling.BlockingIsPossible`). It also goes round, giving up its lock in between,
  while a stream that was drained has its callback still owed: `UnthrottleSources` then
  reports success, but growing the stream asks for no callback, and the record stays
  (`Throttling.StaleRecordStays`, `IdleHandling.StallingMayGoOn`). In every other case a
  pass makes progress, so that the loop ends once the owed callbacks have run
  (`IdleHandling.HandlingEndsUnlessBlocked`). The comment at
  mediapipe/framework/calculator_graph.cc:1206-1211, that each call grows a full stream,
  is true when no callback is owed (`IdleHandling.UnthrottledAsRecorded`).
- The comment at mediapipe/framework/scheduler.cc:121-126, that a nested call of `HandleIdle`
  may be ignored because the original one runs the loop again, fails exactly if the last
  pass gives up the lock, finds no full stream that may grow, and others meanwhile leave
  an error, or no active source and something to quit or to activate for
  (`IdleHandling.EndsWithWorkLeft`). `Cancel` in such a pass does not make the graph quit
  (`IdleHandling.CancelMayBeMissed`).

Only sources and graph inputs are ever held back: `SourceDependence.AncestorsAreReachable`
finds no other upstream node, so the scheduling of non-source nodes ignores throttling.

A CHECK in the source is a precondition of the method that models it, and a lemma shows
that the transition system meets it.

## Model

| member | source | states |
|---|---|---|
| Timestamps.Plus | mediapipe/framework/timestamp.cc:45-61 | addition is the mathematical sum clamped to Min and Max; no intermediate value leaves int64 and the constructor never aborts |
| Timestamps.Minus | mediapipe/framework/timestamp.cc:62-64 | subtraction is the clamped difference, except for the least offset, which aborts |
| Timestamps.NextAndPreviousAreExtremal | mediapipe/framework/timestamp.cc:124-142 | Next is the least range value that may follow, Previous the greatest that may precede, and each says when there is none |
| Timestamps.NextIsMonotoneExceptAtPreStream | mediapipe/framework/timestamp.cc:124-132 | Next is monotone exactly outside the jump from PreStream |
| Timestamps.PreviousIsMonotoneExceptAtPostStream | mediapipe/framework/timestamp.cc:134-142 | Previous is monotone exactly outside PostStream |
| Timestamps.NextAndPreviousAreInverse | mediapipe/framework/timestamp.cc:124-142 | for which timestamps each is undone by the other |
| Timestamps.NextTakesAnyTimestamp | mediapipe/framework/timestamp.cc:124-132 | Next of a timestamp that no stream allows is Min or OneOverPostStream, not an abort |
| InputStreams.InputStreamManager.PrepareForRun | mediapipe/framework/input_stream_manager.cc:49-58 | a run starts from an empty open stream bounded by PreStream |
| InputStreams.InputStreamManager.AppendAccepted | mediapipe/framework/input_stream_manager.cc:110-164 | the loop adds the packets before the first rejected one, and no other |
| InputStreams.InputStreamManager.AddPackets | mediapipe/framework/input_stream_manager.cc:94-181 | new state, status, notification and callback of a call; a rejected packet keeps those before it but reports nothing |
| InputStreams.InputStreamManager.SetNextTimestampBound | mediapipe/framework/input_stream_manager.cc:183-217 | the bound never goes back; the consumer is notified if an empty stream's bound moved |
| InputStreams.InputStreamManager.Close | mediapipe/framework/input_stream_manager.cc:221-229 | a closed stream is bounded by Done, once |
| InputStreams.InputStreamManager.SetMaxQueueSize | mediapipe/framework/input_stream_manager.cc:349-367 | a callback is owed if fullness changed |
| InputStreams.FullIsUnsignedComparison | mediapipe/framework/input_stream_manager.cc:369-372 | full is the unsigned comparison of the source, which no negative maximum passes |
| InputStreams.InputStreamManager.PopReached | mediapipe/framework/input_stream_manager.cc:275-280 | the loop removes every packet at or before the timestamp and keeps the last |
| InputStreams.InputStreamManager.PopPacketAtTimestamp | mediapipe/framework/input_stream_manager.cc:244-299 | the new state, the packet or the settled timestamp, the number dropped, and whether the stream is done or no longer full |
| InputStreams.TakenIsLongestAccepted | mediapipe/framework/input_stream_manager.cc:110-164 | a call takes exactly the packets before the first one that is not acceptable |
| InputStreams.PreparedIsValid | mediapipe/framework/input_stream_manager.cc:49-58 | a prepared stream satisfies the history invariant |
| InputStreams.QueueIsIncreasing | mediapipe/framework/input_stream_manager.cc:94-181 | queued timestamps strictly increase and lie below the bound |
| InputStreams.PopIsExact | mediapipe/framework/input_stream_manager.cc:269-287 | the drop count is the number of queued packets strictly before the popped timestamp, and a packet is returned exactly if one is queued there |
| InputStreams.MissingIsSettled | mediapipe/framework/input_stream_manager.cc:282-287 | a missing packet carries the latest timestamp below all that the stream can still show |
| InputStreams.PopAdvancesBound | mediapipe/framework/input_stream_manager.cc:244-299 | a pop moves the bound just past its timestamp if it is not beyond it, and adds no packet |
| InputStreams.RejectedCallIsSilent | mediapipe/framework/input_stream_manager.cc:110-164 | a call that fails keeps the packets before the first one rejected, and neither notifies nor calls back |
| InputStreams.SettingBoundIsExact | mediapipe/framework/input_stream_manager.cc:183-217 | a bound is rejected if and only if it goes back, and changes the bound only |
| InputStreams.ClosingIsFinal | mediapipe/framework/input_stream_manager.cc:221-229 | after closing no call changes the stream |
| InputStreams.ResizingIsExact | mediapipe/framework/input_stream_manager.cc:349-367 | the maximum asked for is the one that decides what is full |
| InputStreams.StepKeepsValid | mediapipe/framework/input_stream_manager.cc:94-299 | every operation keeps: accepted is removed followed by queued, in strict order below the bound, summary packets alone |
| InputStreams.StepAdvances | mediapipe/framework/input_stream_manager.cc:94-299 | no operation takes back an acceptance or moves the frontier back |
| InputStreams.RunKeepsHistory | mediapipe/framework/input_stream_manager.cc:94-299 | both over a whole run, rejected calls included |
| InputStreams.ProducerStep | mediapipe/framework/input_stream_manager.cc:94-217 | what a producer can change under a reader: the queue only grows, the frontier only advances |
| InputStreams.ClosedStreamIgnoresProducers | mediapipe/framework/input_stream_manager.cc:102-104 | a closed stream ignores its producer |
| InputStreams.EndedStreamTakesNothing | mediapipe/framework/input_stream_manager.cc:138-149 | past PostStream no packet is accepted |
| InputStreams.NotifyIffViewChanges | mediapipe/framework/input_stream_manager.cc:94-217 | a successful call notifies exactly when the emptiness or the frontier changed |
| SyncSets.SyncSet.GetReadiness | mediapipe/framework/input_stream_handler.cc:343-388 | the loop and the decision over what each stream showed when it was visited |
| SyncSets.SyncSet.FillInputSet | mediapipe/framework/input_stream_handler.cc:405-421 | every stream is popped at the timestamp, once |
| SyncSets.PacketDrivenDecisionIsExact | mediapipe/framework/input_stream_handler.cc:356-369 | ready exactly at the least waiting packet if every stream is settled there; close exactly when all streams ended |
| SyncSets.ReadyMeansSettled | mediapipe/framework/input_stream_handler.cc:363-387 | in both modes, ready means every stream is settled at a new allowed timestamp |
| SyncSets.BoundDrivenDecisionIsExact | mediapipe/framework/input_stream_handler.cc:370-387 | ready exactly at the latest settled timestamp, if new, unless the least bound is Min or PostStream |
| SyncSets.BoundDrivenReadinessLags | mediapipe/framework/input_stream_handler.cc:375-385 | a settled packet that is not processed |
| SyncSets.DecisionIsRemembered | mediapipe/framework/input_stream_handler.cc:343-388 | what a decision remembers as processed; when not ready it reports the least that the streams may still show |
| InputSynchronisation.JoinOfPrefixes | mediapipe/framework/input_stream_handler.cc:343-421 | the join of the histories up to a timestamp is a prefix of the whole join |
| InputSynchronisation.JoinExists | mediapipe/framework/input_stream_handler.cc:343-421 | every family of ordered histories has a full outer join |
| InputSynchronisation.SettledSamples | mediapipe/framework/input_stream_handler.cc:346-369 | streams found settled one at a time are settled together |
| InputSynchronisation.SettledPop | mediapipe/framework/input_stream_manager.cc:244-299 | popping a settled stream takes the packet there, drops none and keeps the bound |
| InputSynchronisation.NextKeepsInv | mediapipe/framework/input_stream_handler.cc:343-421 | every step of producers and of the scheduling thread keeps the invariant |
| InputSynchronisation.FillNeverDrops | mediapipe/framework/input_stream_handler.cc:405-421 | the CHECK that no packet is dropped never fails |
| InputSynchronisation.HandedIsPrefixOfJoin | mediapipe/framework/input_stream_handler.h:178-196 | what is handed out is a prefix of the join of all that was ever accepted |
| InputSynchronisation.HandedIsDeterministic | mediapipe/framework/input_stream_handler.h:178-196 | two executions that accept the same packets hand out the same input sets, as far as each has come |
| InputSynchronisation.ClosingIsComplete | mediapipe/framework/input_stream_handler.cc:356-362 | at close the whole join was handed out and no packet can be accepted any more |
| InputSynchronisation.HandedPacketsFit | mediapipe/framework/input_stream_handler.cc:405-421 | a packet handed out has the timestamp of its input set |
| InputSynchronisation.JoinIsUnique | mediapipe/framework/input_stream_handler.cc:343-421 | a family of histories has one full outer join |
| InputSynchronisation.SynchronisationIsDeterministic | mediapipe/framework/input_stream_handler.cc:343-421 | from the start of a run, each execution hands out a prefix of the join in strictly increasing allowed timestamps, and the whole join once it is ready to close; two that accept the same packets agree as far as each has come, and entirely once both are ready to close |
| Invocations.InputStreamHandler.PrepareInputs | mediapipe/framework/input_stream_handler.cc:184-196 | one input set goes to the main context, or to a new one in parallel execution, each slot to the shard of its stream (`Invocations.PrepareHolds`); a full batch is scheduled |
| Invocations.InputStreamHandler.PrepareForClose | mediapipe/framework/input_stream_handler.cc:200-222 | Done is scheduled once, and only with no parallel context in use |
| Invocations.InputStreamHandler.ScheduleInvocations | mediapipe/framework/input_stream_handler.cc:147-225 | follows the evaluations until one stops it or the allowance is used; the bound it reports |
| Invocations.InputStreamHandler.ClearCurrentInputs | mediapipe/framework/input_stream_handler.cc:303-311 | drops the current timestamp and one packet of each shard |
| Invocations.InputStreamHandler.ProcessNode | mediapipe/framework/calculator_node.cc:840-908 | one invocation per pending timestamp until one is not Ok; closes at Done with none left |
| Invocations.InputStreamHandler.RecycleCalculatorContext | mediapipe/framework/calculator_context_manager.cc:94-100 | the context with the least timestamp becomes idle |
| Invocations.PrepareKeepsGood | mediapipe/framework/calculator_context_manager.cc:67-92 | preparing a context never finds its timestamp in use, and keeps order and alignment |
| Invocations.PrepareHolds | mediapipe/framework/input_stream_handler.cc:405-421 | preparing an input set puts each packet into the shard of its stream, after what earlier sets left there |
| Invocations.BatchIsScheduledWhenFull | mediapipe/framework/input_stream_handler.cc:158-196 | in sequential execution exactly the input set that completes a batch schedules an invocation, and the bound reported stays at the first timestamp of the batch |
| Invocations.EachIsScheduledInParallel | mediapipe/framework/input_stream_handler.cc:183-196 | in parallel execution every input set gets its own context and an invocation at once |
| Invocations.CloseIsScheduledOnce | mediapipe/framework/input_stream_handler.cc:200-222 | the call to Close is scheduled with Done pending last, whatever batch is pending, and never again |
| Invocations.MoveKeepsGood | mediapipe/framework/input_stream_handler.cc:147-225 | every step of synchronisation, scheduling, clearing and recycling keeps order and alignment, and the correspondence with the input sets |
| Invocations.RunKeepsGood | mediapipe/framework/input_stream_handler.cc:147-225 | from the start of a run, with nothing assumed of the evaluations but that they come from the synchronised streams: the timestamps handed to invocations are those of the synchronised input sets in order, so they strictly increase; one Done follows after the last of them and stays pending last in the main context; position by position, every shard holds for its stream exactly what the input set at that timestamp has for it |
| Invocations.HandedSetsAreConsistent | mediapipe/framework/input_stream_handler.cc:183-191 | the input set that synchronisation hands out next, with or without packets, is of the kind the contexts rely on |
| Invocations.StartIsGood | mediapipe/framework/input_stream_handler.cc:319-327 | empty contexts and empty streams satisfy what every step keeps, under the CHECKs on the batch size |
| NodeScheduling.CalculatorNode.CheckIfBecameReady | mediapipe/framework/calculator_node.cc:724-742 | the critical section: who becomes the scheduling thread, or asks it to look again |
| NodeScheduling.CalculatorNode.EndScheduling | mediapipe/framework/calculator_node.cc:757-776 | the critical section at the end of an invocation |
| NodeScheduling.CalculatorNode.EnterSchedulingLoop | mediapipe/framework/calculator_node.cc:654-664 | the first section of the loop and its allowance |
| NodeScheduling.CalculatorNode.RepeatSchedulingLoop | mediapipe/framework/calculator_node.cc:675-686 | the last section of an iteration |
| NodeScheduling.CalculatorNode.TryToBeginScheduling | mediapipe/framework/calculator_node.cc:780-787 | an invocation is counted if the maximum allows |
| NodeScheduling.DecisionIsCurrent | mediapipe/framework/input_stream_handler.cc:343-388 | what an evaluation decides from streams read one at a time is true of them now, unless a check is still to come |
| NodeScheduling.ProduceKeepsInv | mediapipe/framework/input_stream_handler.cc:260-301 | a producer's call keeps the invariant |
| NodeScheduling.CheckKeepsInv | mediapipe/framework/calculator_node.cc:724-744 | so does a readiness check |
| NodeScheduling.FinishKeepsInv | mediapipe/framework/calculator_node.cc:757-778 | so does the end of an invocation |
| NodeScheduling.DecideKeepsInv | mediapipe/framework/input_stream_handler.cc:158-224 | so does a readiness decision |
| NodeScheduling.EndOfLoopKeepsInv | mediapipe/framework/calculator_node.cc:675-686 | so does the end of an iteration |
| NodeScheduling.NoWakeupIsLost | mediapipe/framework/calculator_node.cc:654-778 | an open node that is idle, below its maximum and with no notified thread on its way has nothing to schedule in its streams as they are now |
| NodeScheduling.OneThreadWithinBudget | mediapipe/framework/calculator_node.cc:654-787 | one scheduling thread exactly while not idle; in flight plus allowance never exceeds the maximum; no CHECK fails, so an invocation is never refused (scheduler_queue.cc:114), nor queued for a closed node (scheduler_queue.cc:197) |
| NodeScheduling.SchedulingTransitions | mediapipe/framework/calculator_node.h:318-338 | the transitions that occur, and exactly when a pending recheck is dropped |
| NodeScheduling.PendingMayBecomeIdle | mediapipe/framework/calculator_node.cc:675-686 | an execution that ends in the transition that is not documented |
| NodeSynchronisation.StepRefines | mediapipe/framework/calculator_node.cc:654-787 | every step of any thread of a node is a step of the interleaving of one reader and its producers, or changes nothing in it |
| NodeSynchronisation.SchedulingIsSynchronised | mediapipe/framework/calculator_node.cc:654-787 | every execution of a node's threads is an execution of its synchronisation, with the same streams and the same sampling, filling and closing |
| NodeSynchronisation.SchedulingNeverDrops | mediapipe/framework/input_stream_handler.cc:405-421 | in every reachable state of a node under all its threads, the next pop of an input set drops nothing |
| NodePropagation.DecideIsPossible | mediapipe/framework/input_stream_handler.cc:200-208 | contexts are in use only while an invocation is in flight, and always while one is queued: what scheduling asks of a decision, derived |
| NodePropagation.SequentialDecideIsPossible | mediapipe/framework/calculator_context_manager.cc:102-108 | the same for a node without parallel execution, where no context is ever in use |
| NodePropagation.PrepareIsPossible | mediapipe/framework/calculator_context_manager.cc:67-92 | a context is prepared for a timestamp later than all before: the CHECK that it is new never fails |
| NodePropagation.LeastIsBound | mediapipe/framework/output_stream_handler.cc:72-93 | the input bounds that evaluations report never go back: the CHECK on a new task bound never fails |
| NodePropagation.NextKeepsInv | mediapipe/framework/calculator_node.cc:654-787 | in every step of any thread, scheduling, synchronisation, contexts and propagation give each other what they ask |
| NodePropagation.OutputsFollowInputs | mediapipe/framework/calculator_node.cc:654-787 | in every interleaving of a node's threads no CHECK fails, and outputs are propagated in the order of the synchronised input sets, for all of them once no task is left |
| NodePropagation.CloseComesLast | mediapipe/framework/input_stream_handler.cc:197-222 | once the call to Close is prepared, the whole join was handed out and the outputs of every input set were propagated |
| TaskQueues.RunsAfterIsStrictWeakOrder | mediapipe/framework/scheduler_queue.cc:55-81 | the comparison is a strict weak order, with its ties |
| TaskQueues.SchedulerQueue.Reset | mediapipe/framework/scheduler_queue.cc:83-88 | the counters at the beginning of a run |
| TaskQueues.SchedulerQueue.SetRunning | mediapipe/framework/scheduler_queue.cc:98-102 | the running count |
| TaskQueues.SchedulerQueue.AddItemToQueue | mediapipe/framework/scheduler_queue.cc:127-143 | the critical section: new state, whether the queue was idle, tasks to submit |
| TaskQueues.SchedulerQueue.GetTasksToSubmitToExecutor | mediapipe/framework/scheduler_queue.cc:158-163 | waiting tasks become pending |
| TaskQueues.SchedulerQueue.SubmitWaitingTasks | mediapipe/framework/scheduler_queue.cc:165-175 | only a running queue hands out tasks |
| TaskQueues.SchedulerQueue.TakeNextItem | mediapipe/framework/scheduler_queue.cc:186-195 | the item taken is one that no other item precedes, and which one that is (`TaskQueues.TakenRunsFirst`) |
| TaskQueues.TakingRemovesTop | mediapipe/framework/scheduler_queue.cc:192-195 | exactly one item leaves, and none that stays had to run before it |
| TaskQueues.TakenRunsFirst | mediapipe/framework/scheduler_queue.cc:55-81 | which item runs: an OpenNode item with the least id; with none queued, the non-source with the greatest id; else the source least by layer, process order and id |
| TaskQueues.SchedulerQueue.FinishTask | mediapipe/framework/scheduler_queue.cc:208-214 | a finished task, and whether the queue became idle |
| TaskQueues.SchedulerQueue.CleanupAfterRun | mediapipe/framework/scheduler_queue.cc:284-300 | the queue is emptied |
| TaskQueues.NextKeepsInv | mediapipe/framework/scheduler_queue.cc:127-300 | every critical section, callback and AddTask call keeps the accounting |
| TaskQueues.QueueIsNeverEmpty | mediapipe/framework/scheduler_queue.cc:189-190 | RunNextTask never finds an empty queue |
| TaskQueues.CleanupChecksHold | mediapipe/framework/scheduler_queue.cc:289-290 | what CleanupAfterRun CHECKs is true when no task is outstanding |
| TaskQueues.RunningQueueHandsOut | mediapipe/framework/scheduler_queue.cc:127-175 | over any execution: a running queue that was submitted or added to keeps no item back from its executor, and a paused queue hands out none |
| TaskQueues.AccountingIsExact | mediapipe/framework/scheduler_queue.cc:127-300 | in every execution, queued items and pending tasks are exactly accounted for, and so is the count of non-idle queues, queue by queue |
| TaskQueues.CountReturnsToZero | mediapipe/framework/scheduler.cc:451-466 | cleaned-up queues with no callback owed leave the count at 0 |
| TaskQueues.NextKeepsRunInv | mediapipe/framework/scheduler_queue.cc:127-219 | while queues run and idle ones get items from executing tasks only, an active callback is owed by a task older than all tasks of its queue |
| TaskQueues.RunCanBegin | mediapipe/framework/scheduler.cc:191-204 | what a run needs at its start |
| TaskQueues.NoEarlyQuiescence | mediapipe/framework/scheduler.cc:451-466 | in such runs the count is positive while any queue is not idle |
| TaskQueues.ZeroMeansQuiescent | mediapipe/framework/scheduler_queue.h:87-94 | in such runs the count is 0 if and only if all queues are idle and no callback is owed |
| TaskQueues.OtherItemsAreNotCounted | mediapipe/framework/scheduler_queue.cc:127-155 | an item keeps what such runs rely on if and only if an executing task adds it or its queue is busy; any other leaves the count behind |
| TaskQueues.AddingAtZeroGoesUnnoticed | mediapipe/framework/scheduler_queue.cc:127-155 | at count 0 every item that can be added leaves the count at 0 with a queue that is not idle |
| TaskQueues.PausedQueueQuiescesEarly | mediapipe/framework/scheduler_queue.h:87-94 | an item added by no task, with a pause: an execution in which the count is 0 under a running task, and then negative |
| TaskQueues.RunningQueueQuiescesEarly | mediapipe/framework/scheduler_queue.h:87-94 | items added by no task, without a pause: an execution in which the count is 0 under a running task |
| TaskQueues.PausingQuiescesEarly | mediapipe/framework/scheduler_queue.h:87-94 | an item added by a task to a paused queue: an execution in which the count is 0 under that task |
| Throttling.CalculatorGraph.RecordAtNode | mediapipe/framework/calculator_graph.cc:1147-1176 | one node's full streams; the count of throttled graph inputs moves with them |
| Throttling.CountIsExact | mediapipe/framework/calculator_graph.cc:1160-1173 | the count is the number of graph inputs that some full stream holds back |
| Throttling.CalculatorGraph.UpdateThrottledNodes | mediapipe/framework/calculator_graph.cc:1112-1185 | the present fullness is recorded at all upstream nodes; the sources to schedule are those released |
| Throttling.CalculatorGraph.FullStreams | mediapipe/framework/calculator_graph.cc:1212-1225 | the full streams, without graph outputs |
| Throttling.CalculatorGraph.Grow | mediapipe/framework/calculator_graph.cc:1235-1236 | room for one packet more than the size that was read, whatever happened to the stream since, and the callback if that changed its fullness |
| Throttling.CalculatorGraph.ReadSizeAndGrow | mediapipe/framework/calculator_graph.cc:1235-1236 | with nothing in between, the stream is no longer full |
| Throttling.GrownHasRoomForOne | mediapipe/framework/calculator_graph.cc:1235-1236 | a grown stream has room for one packet and is full with it |
| Throttling.CalculatorGraph.UnthrottleSources | mediapipe/framework/calculator_graph.cc:1205-1245 | each such stream is reported, or given room; it is no longer recorded as full if it was full |
| Throttling.UnthrottlingReleases | mediapipe/framework/calculator_graph.cc:1205-1245 | afterwards exactly graph output streams, and streams whose record was stale, hold a node back |
| Throttling.StaleMeansOwed | mediapipe/framework/calculator_graph.cc:1130-1145 | a record is stale only while a callback is owed |
| Throttling.StaleRecordStays | mediapipe/framework/calculator_graph.cc:1235-1236 | an execution after which a stale record would survive unthrottling |
| Throttling.CallbackIffFullnessChanges | mediapipe/framework/input_stream_manager.cc:165-178 | a successful call asks for a callback exactly when fullness changed |
| Throttling.NextKeepsInv | mediapipe/framework/calculator_graph.cc:1130-1180 | stream operations and late callbacks keep the bookkeeping |
| Throttling.BookkeepingIsExact | mediapipe/framework/calculator_graph.cc:1112-1185 | a stream is recorded at all upstream nodes or none; the count of throttled inputs is exact; with no callback owed the record is the truth |
| Throttling.ThrottledIffFullDownstream | mediapipe/framework/calculator_graph.cc:1187-1190 | with no callback owed, a node is throttled if and only if some stream it feeds is full |
| RunStates.Scheduler.SetQueuesRunning | mediapipe/framework/scheduler.cc:105-109 | every queue's running count moves by one |
| RunStates.Scheduler.Start | mediapipe/framework/scheduler.cc:191-199 | a run starts once, and its queues with it |
| RunStates.Scheduler.Pause | mediapipe/framework/scheduler.cc:468-475 | only a running scheduler pauses |
| RunStates.Scheduler.Resume | mediapipe/framework/scheduler.cc:477-484 | only a paused scheduler resumes |
| RunStates.Scheduler.Cancel | mediapipe/framework/scheduler.cc:492-503 | cancelling keeps the queues running, or starts paused ones, so that they can be exhausted |
| RunStates.Scheduler.Quit | mediapipe/framework/scheduler.cc:178-189 | the queues stop with the run |
| RunStates.QueuesRunWhileActive | mediapipe/framework/scheduler_queue.h:152-157 | in every interleaving with source activation, queues run exactly while the run is active and no sources are being activated; the running count is never above 1 |
| RunStates.StateIsTold | mediapipe/framework/scheduler.cc:468-508 | in every interleaving the state follows from the history of calls: Cancelling if and only if Cancel came in a run that had begun and not ended, whether it was paused or not; else Paused or Running by the last Pause or Resume; else not begun or ended |
| RunStates.OneStateIsTold | mediapipe/framework/scheduler.cc:178-199 | these histories exclude one another |
| IdleHandling.Scheduler.CleanupActiveSources | mediapipe/framework/scheduler.cc:355-367 | closed sources leave from the back |
| IdleHandling.Scheduler.TryToScheduleNextSourceLayer | mediapipe/framework/scheduler.cc:369-422 | the lowest waiting layer becomes active, unless a lower one is not opened |
| IdleHandling.Scheduler.MoveNextLayer | mediapipe/framework/scheduler.cc:388-403 | exactly the sources of that layer move |
| IdleHandling.Scheduler.UnthrottleSources | mediapipe/framework/scheduler.cc:158-166 | the step of the loop that breaks a deadlock, except for streams with a callback owed |
| IdleHandling.Scheduler.Iterate | mediapipe/framework/scheduler.cc:132-170 | one pass of the loop |
| IdleHandling.TerminatesExactly | mediapipe/framework/scheduler.cc:136-147 | a pass ends the run if and only if there is an error, or no source waits, every active source is closed and graph inputs are closed |
| IdleHandling.GoesOnExactly | mediapipe/framework/scheduler.cc:149-170 | a pass goes on if and only if it need not quit and either sources wait with none active, or a full stream may grow and a source is active or some graph input is held back |
| IdleHandling.NoSourceIsLeftOut | mediapipe/framework/scheduler.cc:132-147 | over a run without errors, every source that was ever opened has been activated and is closed before the run terminates |
| IdleHandling.LowestLayerFirst | mediapipe/framework/scheduler.cc:369-422 | exactly the waiting sources of a layer are activated, once no source is active, and only if no source of a lower layer waits or is still to be opened |
| IdleHandling.DeadlockIsReported | mediapipe/framework/scheduler.cc:375-386 | with a lower layer still to be opened nothing is activated, which is an error if and only if graph inputs are closed |
| IdleHandling.Scheduler.HandleWhileIdle | mediapipe/framework/scheduler.cc:132-170 | the passes, a bound on their number, and why they stop |
| IdleHandling.Scheduler.HandleIdle | mediapipe/framework/scheduler.cc:119-173 | a second caller returns at once |
| IdleHandling.PassMakesProgress | mediapipe/framework/scheduler.cc:132-170 | a pass that goes on records an error, activates a source or gives room to a full stream, unless blocked or every full stream is stale |
| IdleHandling.UnthrottledAsRecorded | mediapipe/framework/calculator_graph.cc:1205-1245 | what unthrottling leaves recorded follows from the contract of UnthrottleSources and the bookkeeping of Throttling; with no callback owed it leaves graph outputs only |
| IdleHandling.StallingMayGoOn | mediapipe/framework/scheduler.cc:158-166 | while the callbacks are owed, a stalled pass changes nothing, be it for an active source or for a throttled graph input |
| IdleHandling.HandlingEndsUnlessBlocked | mediapipe/framework/scheduler.cc:119-173 | if owed callbacks have run from some pass on, the number of passes is bounded, whatever else other threads do short of adding packets |
| IdleHandling.BlockedForEver | mediapipe/framework/scheduler.cc:375-386 | the branch without progress repeats for ever |
| IdleHandling.BlockingIsPossible | mediapipe/framework/scheduler.cc:375-386 | from the start of a run, opening the higher of two layers first takes that branch |
| IdleHandling.EndsWithWorkLeft | mediapipe/framework/scheduler.cc:119-173 | exactly when the loop ends with work left, although calls that came in the meantime were ignored |
| IdleHandling.CancelMayBeMissed | mediapipe/framework/scheduler.cc:492-508 | in a pass without full streams that may grow, Cancel leaves the graph running |
| IdleHandling.SourceHeldBackByOutput | mediapipe/framework/scheduler.cc:155-166 | there are such passes |
| Generators.GeneratorScheduler.constructor | mediapipe/framework/packet_generator_graph.cc:184-205 | which generators a pass may schedule |
| Generators.GeneratorScheduler.ScanToNext | mediapipe/framework/packet_generator_graph.cc:253-302 | one stretch of the scan under the lock |
| Generators.GeneratorScheduler.RecordOutputs | mediapipe/framework/packet_generator_graph.cc:226-245 | outputs are added, a name defined twice is an error |
| Generators.GeneratorScheduler.GetNonScheduledGenerators | mediapipe/framework/packet_generator_graph.cc:316-330 | what is left for the next pass, unless there were errors |
| Generators.NextPassGoesOn | mediapipe/framework/packet_generator_graph.cc:184-205 | the next pass treats exactly what this one scheduled as done |
| Generators.ErrorsStopGenerators | mediapipe/framework/packet_generator_graph.cc:207-217 | once there is an error no generator starts any more, in any interleaving |
| Generators.NextKeepsInv | mediapipe/framework/packet_generator_graph.cc:207-302 | every step of every task keeps the invariant |
| Generators.IdleMeansDone | mediapipe/framework/packet_generator_graph.cc:304-314 | the task count is 0 only when no task is outstanding |
| Generators.RunsAtMostOnce | mediapipe/framework/packet_generator_graph.cc:258-281 | no generator runs twice, in one pass or in two |
| Generators.EndOfRun | mediapipe/framework/packet_generator_graph.cc:316-330 | the generators left over are exactly those that lack an input |
| Generators.RunEndsAtLeast | mediapipe/framework/packet_generator_graph.cc:399-419 | a run without errors leaves the least closed set of side packets |
| Generators.ErrorFreeIffClean | mediapipe/framework/packet_generator_graph.cc:207-314 | a complete pass, the first or a later one, ends without errors if and only if some closed set of side packets has no packet of a wrong type, no failing generator and no name given twice |
| Generators.RunsAgree | mediapipe/framework/packet_generator_graph.cc:399-419 | all complete interleavings agree on whether there are errors, and without errors on the side packets and on what has run |
| Generators.StagesCompose | mediapipe/framework/packet_generator_graph.cc:359-397 | initialising and then setting up a run gives the least closed set over both inputs |
| Generators.StagesAgreeWithOneRun | mediapipe/framework/packet_generator_graph.cc:359-397 | initialising and then setting up a run succeeds if and only if the inputs are disjoint and one run on both would, and then leaves the same side packets |
| Generators.ExecutionsEnd | mediapipe/framework/packet_generator_graph.cc:207-314 | no interleaving goes on for ever |
| GraphValidation.AddInputsForNode | mediapipe/framework/validated_graph_config.cc:661-729 | the inputs of one node, up to the first error |
| GraphValidation.AddOutputsForNode | mediapipe/framework/validated_graph_config.cc:564-596 | the outputs of one node, up to the first error |
| GraphValidation.RunPass | mediapipe/framework/validated_graph_config.cc:598-629 | one pass over graph inputs and nodes |
| GraphValidation.PassIs | mediapipe/framework/validated_graph_config.cc:518-729 | when a pass succeeds, when it asks for sorting, and what it has linked |
| GraphValidation.SorterEdgesAreDependencies | mediapipe/framework/validated_graph_config.cc:763-803 | the sorter is given exactly the dependencies, without back edges and graph inputs |
| GraphValidation.InOrderIsExact | mediapipe/framework/validated_graph_config.cc:359-364 | sorting is not needed exactly if dependencies point forward and inputs have producers |
| GraphValidation.ValidatedGraphConfig.TopologicalSortNodes | mediapipe/framework/validated_graph_config.cc:752-861 | the nodes are permuted into the sorter's order |
| GraphValidation.ValidatedGraphConfig.FillUpstreamFieldForBackEdges | mediapipe/framework/validated_graph_config.cc:863-879 | back edges are linked, or one has no producer |
| GraphValidation.ValidatedGraphConfig.Analyse | mediapipe/framework/validated_graph_config.cc:359-363 | both passes |
| GraphValidation.SortingKeepsVerdict | mediapipe/framework/validated_graph_config.cc:364-380 | sorting does not change what is acceptable |
| GraphValidation.InOrderVerdict | mediapipe/framework/validated_graph_config.cc:382-385 | after sorting only back edges remain to be decided |
| GraphValidation.ValidatedGraphConfig.Initialize | mediapipe/framework/validated_graph_config.cc:359-385 | accepted if and only if names are unique, every input stream has a producer and dependencies have no cycle; then edges point forward and link to their producers, and each side packet links to its producer before it or, if it has none, is required from outside |
| SourceDependence.ValidatedGraph.AddSourcesForNode | mediapipe/framework/validated_graph_config.cc:1087-1119 | the inputs of one node |
| SourceDependence.ValidatedGraph.ComputeSourceDependence | mediapipe/framework/validated_graph_config.cc:1081-1123 | the single pass |
| SourceDependence.AncestorsAreReachable | mediapipe/framework/validated_graph_config.cc:1081-1123 | a source is found if and only if a path from lower to higher nodes leads from it |
| PacketTypes.PacketType.SetAny | mediapipe/framework/packet_type.cc:52-55 | the type accepts anything |
| PacketTypes.PacketType.SetNone | mediapipe/framework/packet_type.cc:57-60 | the type accepts nothing |
| PacketTypes.PacketType.GetSameAs | mediapipe/framework/packet_type.cc:89-111 | ends at the root |
| PacketTypes.PacketType.SetSameAs | mediapipe/framework/packet_type.cc:62-72 | links to the root of the other type; a cycle becomes Any |
| PacketTypes.CallsKeepForest | mediapipe/framework/packet_type.cc:52-72 | no call makes a cycle |
| PacketTypes.LinkMovesTree | mediapipe/framework/packet_type.cc:62-72 | linking a root moves its tree and no other |
| PacketTypes.LinkMovesSubtree | mediapipe/framework/packet_type.cc:62-72 | linking any type, a root or not, moves what is linked through it and nothing else |
| PacketTypes.LinkDecidesAny | mediapipe/framework/packet_type.cc:62-72 | a type linked into its own tree makes that tree Any; else what is linked through it is Any if and only if the other tree is |
| PacketTypes.After | mediapipe/framework/packet_type.cc:52-72 | any sequence of calls leaves a forest |
| PacketTypes.ResolveAnyTypes | mediapipe/framework/validated_graph_config.cc:904-920 | the loop over the edges |
| PacketTypes.ResolvingAgrees | mediapipe/framework/validated_graph_config.cc:904-920 | the ends of every connected edge have one root, or two that are not Any |
| PacketTypes.AnyFollows | mediapipe/framework/validated_graph_config.cc:904-920 | the input follows the output if its root is Any; only otherwise does the output follow the input |
| PacketTypes.ResolvingKeepsConcrete | mediapipe/framework/validated_graph_config.cc:904-920 | no concrete root changes |
| OutputStreams.OutputStreamShard.ResetTo | mediapipe/framework/output_stream_shard.cc:155-160 | a shard for the next invocation |
| OutputStreams.OutputStreamShard.SetNextTimestampBound | mediapipe/framework/output_stream_shard.cc:34-44 | a legal bound is set and remembered |
| OutputStreams.OutputStreamShard.Close | mediapipe/framework/output_stream_shard.cc:46-50 | a closed shard is bounded by Done |
| OutputStreams.OutputStreamShard.AddPacket | mediapipe/framework/output_stream_shard.cc:97-146 | a packet is queued and moves the bound; an empty one only moves the bound; what is queued over an invocation, and sent over a run, is in `OutputStreams.QueueIsOutputs` and `OutputStreams.OutputsReachMirrors` |
| OutputStreams.QueueIsOutputs | mediapipe/framework/output_stream_shard.cc:97-132 | after any operations the queue is what the calculator added before closing, of allowed timestamps and the right type, in its order |
| OutputStreams.AddingAnswers | mediapipe/framework/output_stream_shard.cc:97-132 | AddPacket succeeds if and only if the stream is open and the packet is empty, or allowed and of the right type; else it changes nothing |
| OutputStreams.AddingBounds | mediapipe/framework/output_stream_shard.cc:104-129 | a packet bounds the stream just past it, and so does an empty one |
| OutputStreams.SettingBoundAnswers | mediapipe/framework/output_stream_shard.cc:34-44 | exactly the bounds from PreStream to OneOverPostStream are taken |
| OutputStreams.ClosedBoundIsDone | mediapipe/framework/output_stream_shard.cc:46-50 | once the calculator has closed the stream its bound is Done |
| OutputStreams.OffsetBoundIsSound | mediapipe/framework/output_stream_manager.cc:120-145 | for every offset, the bound after an input never exceeds what a later input may output and passes what this one could |
| OutputStreams.OffsetBoundOfSummaries | mediapipe/framework/output_stream_manager.cc:123-140 | PreStream, Max and PostStream inputs |
| OutputStreams.BoundsAgree | mediapipe/framework/output_stream_handler.cc:123-137 | the bound of settled inputs is the bound after the last of them |
| OutputStreams.OutputBoundIsExact | mediapipe/framework/output_stream_manager.cc:100-161 | the computed bound of a calculator that never lowers its bound, which never goes back |
| OutputStreams.ComputedBoundIsLatest | mediapipe/framework/output_stream_manager.cc:146-161 | for every calculator: the latest of what it set, what follows its last packet, and what follows the input if that is new |
| OutputStreams.NoOffsetGivesNoBound | mediapipe/framework/output_stream_manager.cc:118-145 | without a declared offset the input has no say in the output bound |
| OutputStreams.OutputStreamManager.PropagateUpdatesToMirrors | mediapipe/framework/output_stream_manager.cc:164-207 | every mirror gets the packets and the bound, the last one by moving |
| OutputStreams.OutputStreamManager.Close | mediapipe/framework/output_stream_manager.cc:45-59 | closes once, and tells every mirror |
| OutputStreams.OutputStreamManager.ResetShard | mediapipe/framework/output_stream_manager.cc:209-218 | the shard starts from the stream's bound |
| OutputStreams.OutputStreamManager.TryPropagateTimestampBound | mediapipe/framework/output_stream_handler.cc:123-137 | a bound on the inputs advances the output bound by the offset, and all mirrors with it |
| OutputStreams.OutputStreamManager.PropagateOutputPackets | mediapipe/framework/output_stream_handler.cc:150-167 | compute, propagate, and close if the shard is closed |
| OutputStreams.AcceptedExactly | mediapipe/framework/input_stream_manager.cc:110-164 | an open stream accepts all packets of a call if and only if each may follow the one before |
| OutputStreams.SkippedBoundIsUnobservable | mediapipe/framework/output_stream_manager.cc:180-203 | propagation is "append, then set the bound": the call it leaves out would succeed, change nothing and notify nobody |
| OutputStreams.AcceptedIffSendable | mediapipe/framework/output_stream_manager.cc:164-207 | every mirror accepts all packets of a shard whose bound is never lowered, if and only if they have the types of the open mirrors and a PostStream packet is the first one ever sent |
| OutputStreams.MirrorStaysInStep | mediapipe/framework/output_stream_manager.cc:164-207 | a mirror in step takes packets that may follow one another and the bound without failure, and is in step again |
| OutputStreams.StartsInStep | mediapipe/framework/output_stream_manager.cc:32-43 | a run starts in step |
| OutputStreams.MirrorsStayInStep | mediapipe/framework/output_stream_manager.cc:164-207 | over every run of a calculator that never lowers its bound and sends what its mirrors have types for, with consumers popping where they are settled: no call to a mirror fails, the output bound never goes back, and every open mirror has that bound and all packets |
| OutputStreams.OutputsReachMirrors | mediapipe/framework/output_stream_manager.cc:164-207 | over such a run a mirror that is never closed is given exactly what the calculator outputs in all its invocations, in that order |
| OutputStreams.SetBoundReachesMirrors | mediapipe/framework/output_stream_manager.cc:164-207 | the bound a calculator sets last is that of its stream |
| OutputPropagation.InOrderOutputStreamHandler.PrepareForRun | mediapipe/framework/output_stream_handler.cc:43-52 | a run starts idle, with no bound |
| OutputPropagation.InOrderOutputStreamHandler.PostProcess | mediapipe/framework/output_stream_handler.cc:95-114 | the section of a completed invocation: who propagates, or is told to look again |
| OutputPropagation.InOrderOutputStreamHandler.UpdateTaskTimestampBound | mediapipe/framework/output_stream_handler.cc:72-93 | the section of a new bound |
| OutputPropagation.InOrderOutputStreamHandler.StartLoop | mediapipe/framework/stream_handler/in_order_output_stream_handler.cc:25-44 | where the loop begins: with a bound, with the front invocation, or not at all |
| OutputPropagation.InOrderOutputStreamHandler.FinishPackets | mediapipe/framework/stream_handler/in_order_output_stream_handler.cc:61-90 | the section after an invocation was propagated: the next one, the bound, or the end |
| OutputPropagation.InOrderOutputStreamHandler.FinishBound | mediapipe/framework/stream_handler/in_order_output_stream_handler.cc:98-131 | the section after a bound was propagated |
| OutputPropagation.FrontIs | mediapipe/framework/stream_handler/in_order_output_stream_handler.cc:31-41 | the CHECK on the first context and the first completed invocation holds, and they meet exactly if the front is completed |
| OutputPropagation.NextKeepsInv | mediapipe/framework/stream_handler/in_order_output_stream_handler.cc:25-131 | every step of every thread keeps the invariant, and no CHECK fails |
| OutputPropagation.OutputsAreInOrder | mediapipe/framework/stream_handler/in_order_output_stream_handler.h:30-32 | in every interleaving the outputs are propagated in the order of their timestamps, each after its invocation |
| OutputPropagation.NothingIsLeft | mediapipe/framework/stream_handler/in_order_output_stream_handler.cc:25-131 | once all invocations are completed and no thread propagates, all outputs were propagated, no context is in use, and the last bound was propagated or is implied |
| OutputPropagation.ImpliedBoundIsLeftOut | mediapipe/framework/stream_handler/in_order_output_stream_handler.cc:68-80 | after outputs were propagated the bound follows if and only if no context is in use and the outputs do not imply it |
| OutputPropagation.SameBoundChangesNothing | mediapipe/framework/output_stream_handler.cc:79-81 | a bound that is not new is not propagated again |
| OutputPropagation.ActiveMeansInFlight | mediapipe/framework/calculator_context_manager.cc:94-108 | while the scheduling thread does not propagate, a context is in use only if an invocation is in flight |
| OutputPropagation.PropagationTransitions | mediapipe/framework/output_stream_handler.h:158-188 | the transitions that occur, and exactly when the one that is not documented does |
| OutputPropagation.PendingMayPropagateBound | mediapipe/framework/stream_handler/in_order_output_stream_handler.cc:112-120 | an execution that ends in the transition that is not documented |

## Left out

- The contents of parallel outputs: `OutputPropagation` says when the outputs of an invocation are propagated; what propagating them does is in `OutputStreams`, for one invocation at a time.
- Other output stream handlers: InOrderOutputStreamHandler is the one that is modelled.
- NodePropagation.OutputsFollowInputs: asks for an error-free run, as `NodeScheduling` does.
- The loops of the output stream handler over its streams: streams do not share state, so each step is modelled for one stream.
- Topological sorting and the tag, index and name parser: nodes and names are numbers, and the sorter is a parameter that returns a topological order if there is one.
- Input stream handlers with several synchronised sets or other policies, DisableTimestamps, PopQueueHead and late preparation: they give other guarantees.
- ProcessNode on a parallel context: it runs one timestamp of its own context, which is a step of the run, not a method.
- Error paths: after a rejected packet, earlier packets of the same call are queued without notification or callback, so lost-wakeup, throttling and mirror results ask for Ok results.
- RunStates.Scheduler.Cancel: the error it records and the call of `HandleIdle` that follows are steps of other threads in `IdleHandling`, where an error makes the loop quit; likewise for the calls of `HandleIdle` in Start and Resume.
- IdleHandling.NoSourceIsLeftOut: asks for a run without errors, as an error ends the run whatever waits.
- OutputStreams.OutputsReachMirrors: asks what `OutputStreams.MirrorsStayInStep` asks.
- NodeScheduling.NoWakeupIsLost: asks for an error-free run, because items are dropped once an error is recorded.
- Throttling.BookkeepingIsExact: asks for maximum queue sizes other than 0 at the start, since such a stream is full before any callback; the graph replaces a configured 0 by 100.
- TaskQueues.NoEarlyQuiescence: asks that queues run and that executing tasks add the items for idle queues, since it is false without either (see the list above). Application threads that add packets to graph inputs do neither, and their items are counted only after their callback. Sources are activated on paused queues, but then `HandleIdle` is not entered a second time.
- TaskQueues.ZeroMeansQuiescent: the same.
- IdleHandling.HandlingEndsUnlessBlocked: other threads add no packets while the loop runs, since each packet may fill a stream again, and threads that owe a callback run it eventually, since the loop goes round until they do.
- IdleHandling.PassMakesProgress: asks that some full stream has no callback owed, since a pass that meets only stale records makes none.
- Throttling.CalculatorGraph.UnthrottleSources: its loop meets no other thread between reading a size and setting the maximum; `Grow` says what happens if it does.
- Generators.RunsAgree: with errors, what is left depends on timing; that there are errors does not.
- OutputStreams.MirrorsStayInStep: a calculator that sends a packet below its own bound, or of a type that a mirror rejects, gets an error from the mirror; the run does not go on.
- Generators.GeneratorScheduler.ScanToNext: the transition system may interrupt a scan at every index, which includes the stretches under the lock.
- OneOf type resolution and type consistency checks: they depend on the order of the edges, and no union is formed.
- Headers, side packet delivery to nodes, output stream observers, counters, profiling, timers, executors and thread pools: plumbing without a hard property; an executor starts each submitted task once.
- Integer types other than timestamps: counters do not overflow.
