# A verified model of the ArmoniK C++ SDK

The SDK submits tasks to an ArmoniK cluster, waits for their results and hands them to the handlers of the
client; on the other side, a worker process loads the libraries of an application and calls them. This project
models the parts of it in which several things happen at once or in which state is easy to get wrong, and
proves what they guarantee on every input, in every interleaving and over every run:

- **Thread pool and join sets** (`ThreadPool`, `PoolProofs`, `JoinSet`, `PoolMachine`, `PoolMachineProofs`, `NestedWaits`).
  One step is one critical section of one thread. Running tasks may spawn further tasks; spawning races with
  shutdown. `NestedWaits` adds functions that wait on the pool they run on.
- **Submission** (`Batching`, `Upload`, `Submission`, `SubmitLoop` and their proofs). The requests of a submission run
  in any order, write one slot at a time, may fail, and share the server with other clients. The client thread passes
  its barriers by nothing but what the join set of `JoinSet` tells it. The server is a store that issues fresh ids and keeps
  names and contents. `SubmitLoop` has the loops themselves, over arrays and a join set, as one of these schedules.
- **The client process** (`ClientMachine`, `ClientProofs`, `ClientTheorems`): any number of submissions at once, together
  with the waits, cleanups and drops of the session they record in.
- **The way of an input** (`Options`, `TaskDefinitions`, `EndToEnd`, `DefinitionLoop`): from the task definitions of the
  client through two uploads to what the worker calls its method with.
- **Waiting for results** (`SessionMaps`, `ResultWaiting`, `WaitLoop` and their proofs): the three maps of a session
  under all interleavings of submissions, waits, cleanups and drops. The listing requests and the deliveries of a wait run
  in any order, and the wait passes its barriers by nothing but what its join set tells it (`WaitingGate`). `WaitLoop` has
  the loop itself, with its batches and its join set, as one of these schedules.
- **The legacy payload codec** (`PayloadCodec`, `PayloadCodecProofs`), including what `strtol` accepts.
- **The life of services in a worker** (`WorkerLifecycle`, `LifecycleProofs`), judged by nothing but the trace of
  calls into foreign code, and **the worker process** (`WorkerProcess`), which takes one task after the other, from its
  options and its payload to that trace, and writes libraries that come as blobs to files.
- **The channel pool** (`ChannelPool`).

Classes and methods are proved equal to functions on values, or to be runs of a machine; the theorems are about those
functions and about all runs. `dafny verify dfyconfig.toml` checks everything.

## What is not as one would think

Some properties that the documentation states, or that one would expect, do not hold of the code. Named with each are the
lemmas that show it on a concrete run or input, or say exactly when it holds:

- `Spawn` counts a thread that has been notified but not yet woken as a sleeping one, so two tasks can share one
  thread although more are allowed (`TwoTasksOneThread`, `TwoTasksOneThreadHappens`, `SpawnProvisionsExactly`).
- A pool with no thread at all accepts tasks and never runs them (`NoThreadNoTask`, `DrainsExactlyWithThreads`), and a
  wait for one of them never comes back (`NoThreadNoReturn`); `std::thread::hardware_concurrency` may return 0.
- A handler runs on the pool, so a handler that submits tasks or waits for results waits on the pool it runs on. With one
  thread this hangs (`OneThreadHangs`); in general pending tasks get on exactly while fewer functions are stuck in such
  waits than the pool may have threads (`PendingMovesExactly`).
- Move assignment to a task object that owns a join set loses that owner (`MoveAssignKeepsOwners`). The pool never
  does this.
- `SetDynamicLibrary` does not remove an old blob id (`LibraryRoundTripExactly`).
- The method name of a task definition travels in the payload, but the worker calls the `Symbol` option
  (`MethodNameIgnored`, `MethodIsTheSymbol`).
- After a library fails to load, the worker can find a stale path or application id in its caches and enter a
  session of a destroyed service (`StalePath`, `InOrderExactly`).
- The cache of `UseLibrary` ignores the namespace (`NamespaceKept`, `EveryCallIsRight`).
- The cache of `UseLibrary` goes by the path alone: a task whose path is the file of a blob leaves a library behind on
  which a later task with that blob is called, although the blob has been written over the file (`AliasedLibrary`).
- A service is created before the one it replaces is destroyed, although the header of the manager says that it is the
  other way round (`CreatedBeforeDestroyed`).
- A failed download leads to `HandleError` and then to `HandleResponse` with an empty payload (`DeliveredExactly`, `DeliveredAsTold`).
- The decoder accepts sizes with blanks, signs, prefixes and upper-case digits, which do not re-encode to themselves
  (`ReadButNotWritten`, `AcceptedButNotCanonical`, `ReserializesExactly`).
- With a chunk size of zero the upload loop sends empty chunks for ever (`LoopEndsExactly`).

## Model

| member | source | states |
|---|---|---|
| `PoolProofs.SpawnedKeeps` | ArmoniK.SDK.Client/src/ThreadPool.cpp:145-166 | Spawn keeps the pool invariant: the sleeping count is that of the blocked and notified threads, and enough of them are notified for the pending tasks |
| `PoolProofs.TestedKeeps` | ArmoniK.SDK.Client/src/ThreadPool.cpp:118-131 | a worker's test of its predicate keeps the invariant, whether it takes a task, sleeps or exits |
| `PoolProofs.StoppedKeeps` | ArmoniK.SDK.Client/src/ThreadPool.cpp:81-87 | so does the stop |
| `PoolProofs.PendingIsNoticed` | ArmoniK.SDK.Client/src/ThreadPool.cpp:112-163 | with a pending task at least min(pending, sleeping) threads are notified and some thread is awake |
| `PoolProofs.SpawnProvisionsExactly` | ArmoniK.SDK.Client/src/ThreadPool.cpp:158-164 | a spawn leaves a pending task without a thread of its own exactly when all free threads are spoken for, one sleeps, and another would be allowed |
| `PoolProofs.TwoTasksOneThread` | ArmoniK.SDK.Client/src/ThreadPool.cpp:158-164 | two spawns in a row do that to a pool with one sleeping thread and room for two |
| `PoolMachineProofs.TwoTasksOneThreadHappens` | ArmoniK.SDK.Client/src/ThreadPool.cpp:145-166 | and a run from the empty pool leads there |
| `PoolProofs.StoppedTestDecreases` | ArmoniK.SDK.Client/src/ThreadPool.cpp:118-131 | after the stop every test of a worker leaves less to do |
| `PoolProofs.StoppedNeverStuck` | ArmoniK.SDK.Client/src/ThreadPool.cpp:78-97 | after the stop some thread is awake until all have exited |
| `PoolProofs.JoinedIsDrained` | ArmoniK.SDK.Client/src/ThreadPool.cpp:89-94 | when all threads have exited no task is pending |
| `ThreadPools.ThreadPool.Spawn` | ArmoniK.SDK.Client/src/ThreadPool.cpp:145-166 | refuses on a stopped pool and changes nothing; otherwise enqueues, starts a thread if none sleeps, and notifies one |
| `ThreadPools.ThreadPool.EnterWait` | ArmoniK.SDK.Client/src/ThreadPool.cpp:116-131 | a worker counts itself as sleeping and tests the predicate at once |
| `ThreadPools.ThreadPool.WakeUp` | ArmoniK.SDK.Client/src/ThreadPool.cpp:118-131 | a woken worker tests it again: exits, takes the oldest task, or sleeps |
| `ThreadPools.ThreadPool.BeginShutdown` | ArmoniK.SDK.Client/src/ThreadPool.cpp:81-87 | sets the stop flag and notifies all |
| `JoinSets.JoinSet.Wait` | ArmoniK.SDK.Client/src/ThreadPool.cpp:174-200 | one pass of Wait or of the destructor: sleep, return, or rethrow and forget the first error |
| `JoinSets.JoinSet.RecordError` | ArmoniK.SDK.Client/src/ThreadPool.cpp:58-70 | keeps the first error only, and wakes all waiters for it |
| `JoinSets.Task.constructor` | ArmoniK.SDK.Client/src/ThreadPool.cpp:13-20 | a task object adds one to the count of its join set |
| `JoinSets.Task.MoveAssign` | ArmoniK.SDK.Client/src/ThreadPool.cpp:25-32 | ownership moves; assigning to itself changes nothing |
| `JoinSets.Task.Destroy` | ArmoniK.SDK.Client/src/ThreadPool.cpp:34-43 | the owner takes one off the count and wakes all at zero |
| `JoinSets.TakeAndRun` | ArmoniK.SDK.Client/src/ThreadPool.cpp:113-140 | through all moves and destructions of one turn of a worker, the join set is told once |
| `JoinSets.MoveAssignKeepsOwners` | ArmoniK.SDK.Client/src/ThreadPool.cpp:25-32 | no owner of any join set is lost if and only if the target owned none or is assigned to itself |
| `PoolMachineProofs.InvStep` | ArmoniK.SDK.Client/src/ThreadPool.cpp:13-200 | every step keeps: the count of every join set is the number of its live task objects; accepted tasks are started in order, each once; the recorded error is the first unreported one |
| `PoolMachineProofs.NoLostWakeup` | ArmoniK.SDK.Client/src/ThreadPool.cpp:104-166 | in every reachable state the sleeping count is exact, the thread limit holds, and a pending task means a worker that can take a step |
| `PoolMachineProofs.AwakeCanStep` | ArmoniK.SDK.Client/src/ThreadPool.cpp:104-143 | nothing in the shared state ever holds up an awake worker; functions that wait on the pool themselves are the subject of `NestedWaits` |
| `PoolMachineProofs.WaitIsABarrier` | ArmoniK.SDK.Client/src/ThreadPool.cpp:186-200 | a wait that returns finds every task ever made for the join set, nested ones included, finished or rejected, and no error unreported |
| `PoolMachineProofs.WaitThrowsExactly` | ArmoniK.SDK.Client/src/ThreadPool.cpp:188-197 | it throws if and only if an error is unreported, and then the oldest |
| `PoolMachineProofs.WaitSleepsExactly` | ArmoniK.SDK.Client/src/ThreadPool.cpp:174-200 | a pass of Wait or of the destructor leaves its thread asleep if and only if a task is not over and there is no error for it to throw, and moves no other waiter |
| `PoolMachineProofs.NoWaiterForgotten` | ArmoniK.SDK.Client/src/ThreadPool.cpp:34-70 | a waiter left asleep has a live task to wait for and no error to hear of |
| `PoolMachineProofs.StaysQuiet` | ArmoniK.SDK.Client/src/ThreadPool.cpp:186-200 | after the barrier the join set stays quiet over every run in which nobody makes a task for it |
| `PoolMachineProofs.ShutdownIsFinite` | ArmoniK.SDK.Client/src/ThreadPool.cpp:78-97 | after the stop nothing more is accepted and the workers have a bounded number of steps, over every run |
| `PoolMachineProofs.ShutdownNeverStuck` | ArmoniK.SDK.Client/src/ThreadPool.cpp:89-94 | and one of them can always take one until the destructor returns |
| `PoolMachineProofs.DrainsExactlyWithThreads` | ArmoniK.SDK.Client/src/ThreadPool.cpp:78-97 | the destructor returns with every accepted task executed exactly once, in all runs, if and only if the pool may have a thread |
| `PoolMachineProofs.NoThreadNoTask` | ArmoniK.SDK.Client/src/ThreadPool.cpp:72-76 | without threads there is a run that drops an accepted task |
| `PoolMachineProofs.NoThreadNoReturn` | ArmoniK.SDK.Client/src/ThreadPool.cpp:188-200 | and over every run a wait on a join set that such a pool has accepted a task for neither returns nor throws |
| `NestedWaits.NestedIsReachable` | ArmoniK.SDK.Client/src/ThreadPool.cpp:104-200 | functions that wait on their own pool are among the interleavings of the pool machine, so that whatever is safe there is safe with them |
| `NestedWaits.StuckMeansFull` | ArmoniK.SDK.Client/src/ThreadPool.cpp:145-166 | all workers are stuck in nested waits only when the pool has all the threads it may have, although a spawn may leave a task without a thread of its own |
| `NestedWaits.PendingMovesExactly` | ArmoniK.SDK.Client/src/ThreadPool.cpp:104-200 | in every reachable state with a pending task some worker that is awake gets on if and only if fewer functions are stuck in waits than the pool may have threads |
| `NestedWaits.OneThreadHangs` | ArmoniK.SDK.Client/src/SessionServiceImpl.cpp:604-719 | with one thread, a function that spawns a task and waits for it leads to a state in which that task is pending and no worker gets on |
| `Batching.Batcher.Add` | ArmoniK.SDK.Client/private/Batcher.h:74-79 | hands over the batch as soon as it has the batch size, else keeps it |
| `Batching.Batcher.ProcessBatch` | ArmoniK.SDK.Client/private/Batcher.h:84-92 | hands over what is pending, if anything, and is empty after |
| `Batching.PlanCreation` | ArmoniK.SDK.Client/src/SessionServiceImpl.cpp:250-271 | the loop over the payloads emits exactly the planned batches of both batchers, in order |
| `Batching.PlanTasks` | ArmoniK.SDK.Client/src/SessionServiceImpl.cpp:273-279 | all indices in order, in n / max(1, batch size) batches, rounded up, of which all but the last are full |
| `BatchingProofs.PlanCoversOnce` | ArmoniK.SDK.Client/src/SessionServiceImpl.cpp:158-271 | every input and every output is in exactly one batch, and the small batches concatenate to the small inputs in order |
| `BatchingProofs.MetadataInOrder` | ArmoniK.SDK.Client/src/SessionServiceImpl.cpp:250-271 | the batches without data concatenate to the outputs and the large inputs in the order of the items, an output before its input |
| `BatchingProofs.MetadataIsFull` | ArmoniK.SDK.Client/src/SessionServiceImpl.cpp:158-271 | and each of them but the last has max(1, batch size) slots |
| `BatchingProofs.PlanRespectsLimits` | ArmoniK.SDK.Client/src/SessionServiceImpl.cpp:254-266 | every small batch is strictly below the message size and within the count limit; large inputs are never inlined |
| `BatchingProofs.StaysAhead` | ArmoniK.SDK.Client/src/SessionServiceImpl.cpp:250-266 | after any prefix the greedy split has used no more batches than any other split, and at a tie its open batch is no longer than the other's last |
| `BatchingProofs.FewestRequests` | ArmoniK.SDK.Client/src/SessionServiceImpl.cpp:250-271 | no order-preserving split within the limits has fewer small batches |
| `BatchingProofs.PlanIsASplit` | ArmoniK.SDK.Client/src/SessionServiceImpl.cpp:250-271 | the plan is one of those splits |
| `Upload.SendChunks` | ArmoniK.SDK.Client/src/SessionServiceImpl.cpp:76-84 | sends the chunks in order until one is refused |
| `Upload.UploadLargeResult` | ArmoniK.SDK.Client/src/SessionServiceImpl.cpp:41-130 | succeeds if and only if one of three attempts gets a channel, has no chunk refused, ends its writes and its call well, and is reported with the size of the data; stops at the first of them, which has sent the whole data; every earlier attempt lacks one of these, and so do all three when it fails |
| `Upload.ChunksExact` | ArmoniK.SDK.Client/src/SessionServiceImpl.cpp:76-84 | chunks are nonempty, within the limit and full but for the last, concatenate to the data, and are size / limit, rounded up, in number |
| `Upload.LoopEndsExactly` | ArmoniK.SDK.Client/src/SessionServiceImpl.cpp:77-84 | after as many turns as there are bytes the loop has ended if and only if the limit is not zero or there is no data; with limit zero all of it remains after any number of turns |
| `SubmissionProofs.SlotNameInjective` | ArmoniK.SDK.Client/src/SessionServiceImpl.cpp:162-167 | no two inputs or outputs are requested under one name |
| `SubmissionJoin.JoinStep` | ArmoniK.SDK.Client/src/ThreadPool.cpp:13-70 | every step of a submission keeps: the count of the join set is the number of task objects that are left, its error is there exactly when a function has thrown and the error is not rethrown yet, and a client thread asleep has nothing to wake up for |
| `SubmissionJoin.WaitPassesExactly` | ArmoniK.SDK.Client/src/ThreadPool.cpp:186-200 | Wait returns if and only if all task objects are gone and none has thrown, and throws if and only if one has |
| `SubmissionProofs.InvStep` | ArmoniK.SDK.Client/src/SessionServiceImpl.cpp:155-280 | every step of every interleaving keeps: each slot is owed by at most one job until it is written, what is written is what the server issued for that slot, and unless something failed nothing is forgotten |
| `SubmissionTheorems.CompletedIsExact` | ArmoniK.SDK.Client/src/SessionServiceImpl.cpp:151-292 | when a submission completes, slot i holds the id under which the server has payload i as input-i, the id of output-i, and the id of the task with that payload, that one output, and the dependencies and options it was given |
| `SubmissionTheorems.SchedulesAgree` | ArmoniK.SDK.Client/src/SessionServiceImpl.cpp:155-280 | two schedules under a server that names things alike end with the same three arrays |
| `SubmissionTheorems.CompletedIsFresh` | ArmoniK.SDK.Client/src/SessionServiceImpl.cpp:282-290 | the recorded results and tasks are new and pairwise distinct |
| `SubmissionTheorems.RequestsAreAssigned` | ArmoniK.SDK.Client/src/SessionServiceImpl.cpp:219-248 | no task request of any schedule carries an unassigned id or an input whose data is not stored |
| `SubmissionTheorems.BarriersAreExact` | ArmoniK.SDK.Client/src/SessionServiceImpl.cpp:268-280 | in every schedule both barriers let the client pass exactly when all tasks spawned so far, nested uploads included, are over and none has thrown, and throw exactly when one has |
| `SubmissionTheorems.AbortedExactly` | ArmoniK.SDK.Client/src/SessionServiceImpl.cpp:268-293 | a run that has ended has thrown if and only if some function threw in it, has returned otherwise, and leaves no task |
| `SubmissionTheorems.ThrowsTheFirst` | ArmoniK.SDK.Client/src/ThreadPool.cpp:58-70 | what a barrier throws is the exception of the function that threw first, in every schedule |
| `SubmissionTheorems.FailedMeansNotRecorded` | ArmoniK.SDK.Client/src/SessionServiceImpl.cpp:268-290 | once a request or an upload has failed, no continuation completes; one that ends has thrown |
| `SubmissionProgress.NeverStuck` | ArmoniK.SDK.Client/src/SessionServiceImpl.cpp:155-280 | until it ends, the client thread or one of the functions can go on, without any failure: there are always ids the server can answer with, and the client thread is not left asleep |
| `SubmissionProgress.StepsRunOut` | ArmoniK.SDK.Client/src/SessionServiceImpl.cpp:155-280 | every step of a submission, other than one that sends the client thread to sleep, uses up a measure |
| `SubmissionProgress.CanAlwaysEnd` | ArmoniK.SDK.Client/src/SessionServiceImpl.cpp:135-293 | from every reachable state there is a run without a failure and without help to the end: to completion if nothing has failed, else to the exception |
| `ClientProofs.InvStep` | ArmoniK.SDK.Client/src/SessionServiceImpl.cpp:135-293 | any number of submissions at once, with waits, cleanups, drops and other processes: every step keeps that each is a run of its own machine, that the server has made nothing for two of them, and that the session has recorded whole submissions |
| `ClientTheorems.SubmissionsAreFresh` | ArmoniK.SDK.Client/src/SessionServiceImpl.cpp:282-290 | whenever a submission comes to record, its ids are new to the session, concurrent submissions included, and nothing keeps it from recording |
| `ClientTheorems.AllOrNothing` | ArmoniK.SDK.Client/src/SessionServiceImpl.cpp:268-293 | in every schedule a submission that has recorded has recorded every slot with its task and handler, and the server has what they stand for; of any other no result is known to the session; one with a failure has not recorded and cannot, and has thrown if it has ended |
| `ClientTheorems.FailedIsNeverRecorded` | ArmoniK.SDK.Client/src/SessionServiceImpl.cpp:268-290 | and that stays so over every continuation |
| `ClientTheorems.SessionIsReachable` | ArmoniK.SDK.Client/src/SessionServiceImpl.cpp:282-290 | the session is one of those that all theorems about sessions speak of |
| `SubmitLoop.UploadJob` | ArmoniK.SDK.Client/src/SessionServiceImpl.cpp:185-188 | the server gets exactly the data of the input if and only if one of the three attempts is good, told by the fields of the attempts; else it is left as it was |
| `SubmitLoop.UploadsAreTheLargeInputs` | ArmoniK.SDK.Client/src/SessionServiceImpl.cpp:185-188 | the uploads of a submission are those of the inputs that have 128 bytes less than a message, or more, whatever the plan |
| `SubmitLoop.RunUpload` | ArmoniK.SDK.Client/src/SessionServiceImpl.cpp:185-188 | the job of a nested upload ends with the data on the server in that case, and by recording an error else |
| `SubmitLoop.WriteSlots` | ArmoniK.SDK.Client/src/SessionServiceImpl.cpp:174-190 | the loop over a reply writes the ids into the arrays and uploads large inputs, as a run of the machine |
| `SubmitLoop.RunCreation` | ArmoniK.SDK.Client/src/SessionServiceImpl.cpp:160-215 | one request to create results, with all that comes of it, is such a run |
| `SubmitLoop.RunSubmission` | ArmoniK.SDK.Client/src/SessionServiceImpl.cpp:220-247 | and so is one request to submit tasks |
| `SubmitLoop.SubmitRaw` | ArmoniK.SDK.Client/src/SessionServiceImpl.cpp:135-280 | the whole function is a run of the machine from its start, join set included; it makes the requests of the plan and, if they go through, as many for the tasks as the batch size calls for; it completes if and only if none of these fails and every large input has a good attempt, and then the arrays are exact |
| `SubmitLoop.SubmitAndRecord` | ArmoniK.SDK.Client/src/SessionServiceImpl.cpp:135-293 | all or nothing: the maps gain exactly the new pairs with the handler, or are as they were, and stay consistent |
| `Options.TaskOptions.SetDynamicLibrary` | ArmoniK.SDK.Common/src/TaskOptions.cpp:40-47 | sets three options, and the blob id only if there is one |
| `Options.LibraryRoundTripExactly` | ArmoniK.SDK.Common/src/TaskOptions.cpp:40-76 | reading the library back gives what was set if and only if no old blob id stays behind and a path or a blob id was set |
| `TaskDefinitions.CollectRawInputs` | ArmoniK.SDK.Client/src/SessionServiceImpl.cpp:338-347 | the raw inputs of all tasks, task by task |
| `TaskDefinitions.BuildPayloads` | ArmoniK.SDK.Client/src/SessionServiceImpl.cpp:423-437 | every payload carries its method name, its references, and the ids of its uploads |
| `TaskDefinitions.BuildDependencies` | ArmoniK.SDK.Client/src/SessionServiceImpl.cpp:446-464 | dependencies are the library blob, then the uploads, then the references |
| `TaskDefinitions.ResolveInputs` | ArmoniK.SDK.DynamicWorker/src/DynamicWorker.cpp:63-69 | a value that names a dependency is replaced by its content, any other stays |
| `EndToEnd.PayloadValue` | ArmoniK.SDK.Client/src/SessionServiceImpl.cpp:423-464 | the value of an input in the payload is the id of its upload, or the id it refers to, and is a dependency in both cases |
| `EndToEnd.DependenciesExactly` | ArmoniK.SDK.Client/src/SessionServiceImpl.cpp:446-464 | task i depends on the library blob, if there is one, then on the uploads of its own raw inputs, then on the blobs it refers to: one dependency for each, and nothing else |
| `EndToEnd.RawInputsCounted` | ArmoniK.SDK.Client/src/SessionServiceImpl.cpp:338-347 | there are as many uploads as there are raw inputs |
| `EndToEnd.ResolvedAsMeant` | ArmoniK.SDK.DynamicWorker/src/DynamicWorker.cpp:63-69 | resolving the payload of task i gives exactly the names of its definition, each with the raw data or the stored content meant |
| `EndToEnd.PreparedExactly` | ArmoniK.SDK.DynamicWorker/src/DynamicWorker.cpp:25-73 | the worker gets as far as the call if and only if version, symbol and library options fit, and then with the resolved inputs, the method of the options, and the library of the path or the blob |
| `EndToEnd.WorkerSeesWhatTheClientMeant` | ArmoniK.SDK.Client/src/SessionServiceImpl.cpp:318-467 | end to end, over every pair of upload schedules: the worker of task i gets to the call exactly when the options fit, and calls the method of the options with exactly the inputs of definition i as they were meant; a nonempty library blob id is among its dependencies |
| `DefinitionLoop.BuildRequest` | ArmoniK.SDK.Client/src/SessionServiceImpl.cpp:423-466 | the loops over the definitions build the payloads and dependencies that the theorem is about |
| `DefinitionLoop.SubmitDefinitions` | ArmoniK.SDK.Client/src/SessionServiceImpl.cpp:318-467 | the whole function: when it returns, every task is recorded with the handler and its worker will see the inputs as they were meant; when it throws, nothing is recorded; what requests are made, and when it returns, is exact |
| `EndToEnd.MethodIsTheSymbol` | ArmoniK.SDK.DynamicWorker/src/DynamicWorker.cpp:25-62 | when a convention task gets as far as a call, and that the method called is the definition's if and only if the Symbol option equals it |
| `EndToEnd.MethodNameIgnored` | ArmoniK.SDK.DynamicWorker/src/DynamicWorker.cpp:58-62 | a definition whose method name is not the method called |
| `SessionMaps.Session.Record` | ArmoniK.SDK.Client/src/SessionServiceImpl.cpp:282-290 | the loop over the slots of a submission, as the function Recorded |
| `SessionMaps.Session.Extract` | ArmoniK.SDK.Client/src/SessionServiceImpl.cpp:608-621 | takes a result out of all three maps with its handler and task |
| `SessionMaps.Session.CleanupTasks` | ArmoniK.SDK.Client/src/SessionServiceImpl.cpp:806-816 | the loop over the tasks to clean up, as the function Cleaned |
| `SessionMaps.Session.DropSession` | ArmoniK.SDK.Client/src/SessionServiceImpl.cpp:759-766 | all three maps are empty |
| `SessionMaps.Session.TakeSnapshot` | ArmoniK.SDK.Client/src/SessionServiceImpl.cpp:527-553 | with no tasks given, exactly the results that have a handler; else exactly those of the given tasks that are known; all as not found |
| `SessionMaps.Session.HandleResult` | ArmoniK.SDK.Client/src/SessionServiceImpl.cpp:604-719 | what one delivery does, told by status and outcome alone: whether an exception leaves it, whether it notes an error, and what the handler is told, in order, with the reason of each error |
| `SessionMaps.FillIn` | ArmoniK.SDK.Client/src/SessionServiceImpl.cpp:575-578 | the statuses that the server lists are taken over, asked for or not, the others stay |
| `SessionMaps.Sweep` | ArmoniK.SDK.Client/src/SessionServiceImpl.cpp:591-722 | created results are kept as not found for the next round, all others are due with the status just listed |
| `SessionMapsProofs.RecordedOneExactly` | ArmoniK.SDK.Client/src/SessionServiceImpl.cpp:287-289 | a further pair keeps the maps inverse if and only if neither id is paired with another one |
| `SessionMapsProofs.RecordedExactly` | ArmoniK.SDK.Client/src/SessionServiceImpl.cpp:282-290 | recording new ids adds exactly their pairs and keeps the maps consistent |
| `SessionMapsProofs.ExtractedExactly` | ArmoniK.SDK.Client/src/SessionServiceImpl.cpp:608-621 | extraction removes one result from all three maps, and nothing else |
| `SessionMapsProofs.CleanedExactly` | ArmoniK.SDK.Client/src/SessionServiceImpl.cpp:806-816 | cleanup removes the results of the given tasks from all three maps, and nothing else |
| `SessionMapsProofs.DeliveredExactly` | ArmoniK.SDK.Client/src/SessionServiceImpl.cpp:624-719 | a delivery makes exactly one callback under exact conditions on status, download and handler, notes no error only if it answers with the downloaded data, and calls nobody without a handler |
| `SessionMapsProofs.DeliveredAsTold` | ArmoniK.SDK.Client/src/SessionServiceImpl.cpp:624-719 | a delivery lets an exception out, and notes an error, each if and only if status and outcome say so; the reasons told are the task of an aborted result, its owner first, the status of any other, no data before the response and a failed handler after it |
| `SessionMapsProofs.SnapshotIsPaired` | ArmoniK.SDK.Client/src/SessionServiceImpl.cpp:527-553 | in consistent maps a wait for everything is for all results with a handler, any other for exactly the results of its tasks |
| `SessionMapsProofs.DeliveredAnswers` | ArmoniK.SDK.Client/src/SessionServiceImpl.cpp:655-676 | it answers once if the result is completed and no odd exception leaves the download, and never otherwise |
| `WaitingProofs.InvStep` | ArmoniK.SDK.Client/src/SessionServiceImpl.cpp:515-735 | every step of every interleaving keeps the invariant of maps, waits, join sets, claims and callbacks |
| `WaitingGate.ListingPassesExactly` | ArmoniK.SDK.Client/src/ThreadPool.cpp:188-200 | the Wait behind the listing returns if and only if no request is left and none has thrown, and throws if and only if one has |
| `WaitingGate.RoundPassesExactly` | ArmoniK.SDK.Client/src/ThreadPool.cpp:188-200 | the Wait behind the deliveries returns if and only if no delivery is left and no exception has escaped, and throws if and only if one has |
| `WaitingGate.UnwindPassesExactly` | ArmoniK.SDK.Client/src/ThreadPool.cpp:174-179 | the destructor of the join set returns if and only if nothing is left |
| `WaitingTheorems.MapsStayConsistent` | ArmoniK.SDK.Client/src/SessionServiceImpl.cpp:282-290 | in every reachable state the maps are mutual inverses, handlers are those of the paired results, and every recorded result is in the maps, taken by one wait, or removed |
| `WaitingTheorems.AtMostOnce` | ArmoniK.SDK.Client/src/SessionServiceImpl.cpp:604-719 | over every run the callbacks about a result are those of a single delivery, answer it at most once, and go to the handler recorded with it, with its task |
| `WaitingTheorems.CalledExactlyOnce` | ArmoniK.SDK.Client/src/SessionServiceImpl.cpp:604-719 | exactly one callback if and only if the delivery met the exact condition; exactly one answer if and only if the result was completed |
| `WaitingTheorems.CalledAsTold` | ArmoniK.SDK.Client/src/SessionServiceImpl.cpp:604-719 | and over every run what a handler hears of a result, in order and with reasons, is what the listing and the outcome of the delivery call for |
| `WaitingTheorems.UntakenIsSilent` | ArmoniK.SDK.Client/src/SessionServiceImpl.cpp:806-816 | nobody hears of a result that was cleaned up, dropped or not yet taken |
| `WaitingTheorems.WaitsForAll` | ArmoniK.SDK.Client/src/SessionServiceImpl.cpp:527-553 | in every reachable state a call of WaitResults without tasks waits for all results that have a handler, one with tasks for exactly their results; it returns at once if and only if there are none |
| `WaitingTheorems.DrainsAll` | ArmoniK.SDK.Client/src/SessionServiceImpl.cpp:515-736 | a wait for everything that has returned, over any run, and for neither `Any`, `BreakOnError` nor the deadline, has delivered exactly the results that had a handler when it began |
| `WaitingTheorems.ReturnsExactly` | ArmoniK.SDK.Client/src/SessionServiceImpl.cpp:724-735 | at the barrier behind the deliveries a wait throws as soon as an exception has escaped from one, waits while one is not over, and else returns or goes on, each for exactly its own reasons, told by the statuses and outcomes of what was delivered |
| `WaitingTheorems.ListsExactly` | ArmoniK.SDK.Client/src/SessionServiceImpl.cpp:585-589 | at the barrier behind the listing requests it throws as soon as one of them has, goes on to the sweep exactly when all are over and none has, and waits else |
| `WaitingTheorems.ThrowsExactly` | ArmoniK.SDK.Client/src/ThreadPool.cpp:174-179 | an exception leaves the call exactly when everything it has spawned is over |
| `WaitingTheorems.EndsQuietly` | ArmoniK.SDK.Client/src/SessionServiceImpl.cpp:515-736 | a wait that has thrown has seen a request throw or an exception escape, one that has returned neither, and nothing spawned outlives the call |
| `WaitingTheorems.ReturnedForAReason` | ArmoniK.SDK.Client/src/SessionServiceImpl.cpp:583-735 | whenever a wait has returned one of these reasons holds |
| `WaitingTheorems.DeliveredIsGone` | ArmoniK.SDK.Client/src/SessionServiceImpl.cpp:606-621 | nothing that was delivered is in any map; a drained wait leaves nothing of its results |
| `WaitingTheorems.StatusIsListed` | ArmoniK.SDK.Client/src/SessionServiceImpl.cpp:583-602 | every status acted on was listed in that round, absent meaning not found, and every round before listed created |
| `WaitingTheorems.LastRound` | ArmoniK.SDK.Client/src/SessionServiceImpl.cpp:583-735 | a round in which no result is listed as created is the last one |
| `WaitingTheorems.RoundsAreNotStuck` | ArmoniK.SDK.Client/src/SessionServiceImpl.cpp:583-724 | until a wait has ended, a function it has spawned can get on, or all are over, and then the client is awake and its next pass goes through the barrier |
| `WaitingTheorems.StepsLeaveLess` | ArmoniK.SDK.Client/src/SessionServiceImpl.cpp:557-722 | and every step of these functions leaves less to do before the barrier |
| `WaitLoop.WaitResults` | ArmoniK.SDK.Client/src/SessionServiceImpl.cpp:515-736 | the loop with its batches, its join set and its tests, run without interference, is a run of the interleaved steps, with the same maps, callbacks and way out; it is for all results with a handler, or those of the given tasks; each round makes as many requests as the batch size calls for, and throws if one of them does; pending is exactly what every round lists as created, and what was done with every other result is what the rounds said |
| `WaitLoop.AskAll` | ArmoniK.SDK.Client/src/SessionServiceImpl.cpp:557-588 | the batched listing requests of one round are such a run, as many as the pending results call for; the round throws if and only if one of them does; if none does, every pending result has the status that the server lists |
| `WaitLoop.DeliverAll` | ArmoniK.SDK.Client/src/SessionServiceImpl.cpp:604-719 | the deliveries of one round are takes, finishes and ends of exactly what was due |
| `WaitLoop.Barrier` | ArmoniK.SDK.Client/src/ThreadPool.cpp:174-200 | when all tasks are over, the barrier throws if and only if one has thrown, and leaves the join set empty |
| `PayloadCodec.Serialize` | ArmoniK.SDK.Common/src/TaskPayload.cpp:63-71 | method name, arguments and dependencies in this order, each behind its size |
| `PayloadCodec.Deserialize` | ArmoniK.SDK.Common/src/TaskPayload.cpp:73-90 | equal to the recursive decoder, errors included |
| `PayloadCodecProofs.RoundTripExactly` | ArmoniK.SDK.Common/src/TaskPayload.cpp:63-90 | decoding an encoded payload gives it back if and only if every field is shorter than 2^32 |
| `PayloadCodecProofs.SerializeInjective` | ArmoniK.SDK.Common/src/TaskPayload.cpp:63-71 | different payloads with such fields have different encodings |
| `PayloadCodecProofs.DecodesExactlyFrames` | ArmoniK.SDK.Common/src/TaskPayload.cpp:73-90 | the inputs accepted are exactly the concatenations of frames whose header strtol reads as the size of the field |
| `PayloadCodecProofs.DecodeIsFields` | ArmoniK.SDK.Common/src/TaskPayload.cpp:78-89 | a payload is the fields of such an input, and at least two of them |
| `PayloadCodecProofs.FieldsInOrder` | ArmoniK.SDK.Common/src/TaskPayload.cpp:78-89 | the first is the method name, the second the arguments, the others the dependencies |
| `PayloadCodecProofs.HeaderReadExactly` | ArmoniK.SDK.Common/src/TaskPayload.cpp:36-47 | a header is accepted if and only if it is blanks, a sign or none, 0x or 0X or none, and hexadecimal digits to its end |
| `PayloadCodecProofs.SizeReadExactly` | ArmoniK.SDK.Common/src/TaskPayload.cpp:36-47 | and stands for the number that the digits are, counted down from 2^32 behind a minus sign |
| `PayloadCodecProofs.ReserializesExactly` | ArmoniK.SDK.Common/src/TaskPayload.cpp:30-90 | an accepted input re-encodes to itself if and only if all its headers are eight lower-case hexadecimal digits |
| `PayloadCodecProofs.AcceptedButNotCanonical` | ArmoniK.SDK.Common/src/TaskPayload.cpp:36-47 | every header that strtol reads as the size of its field, and that is not eight such digits, makes an accepted input that re-encodes differently |
| `PayloadCodecProofs.ReadButNotWritten` | ArmoniK.SDK.Common/src/TaskPayload.cpp:36-47 | there are such headers of every kind: either sign, any blank, either prefix, every upper-case digit |
| `PayloadCodecProofs.TruncationRejectedExactly` | ArmoniK.SDK.Common/src/TaskPayload.cpp:49-90 | a prefix of an accepted input is accepted if and only if it ends behind the second or a later field |
| `PayloadCodecProofs.RefusedExactly` | ArmoniK.SDK.Common/src/TaskPayload.cpp:30-90 | an input is refused with an error if and only if it is that of the first place where no field can be read: no header, a header that is no number, or a field that is cut short; or because it has fewer than two fields |
| `WorkerLifecycle.ServiceManager.UseSession` | ArmoniK.SDK.DynamicWorker/src/ServiceManager.cpp:28-37 | leaves the old session, if any, and enters the new one; nothing if it is the same |
| `WorkerLifecycle.ServiceManager.Clear` | ArmoniK.SDK.DynamicWorker/src/ServiceManager.cpp:75-85 | leaves the session, destroys the service, and forgets both |
| `WorkerLifecycle.ServiceManager.Swap` | ArmoniK.SDK.DynamicWorker/include/ServiceManager.h:48-56 | move assignment exchanges two managers |
| `WorkerLifecycle.ApplicationManager.UseApplication` | ArmoniK.SDK.DynamicWorker/src/ApplicationManager.cpp:12-30 | the new state and trace, on a hit, a failed load, missing symbols and success |
| `WorkerLifecycle.ApplicationManager.UseService` | ArmoniK.SDK.DynamicWorker/src/ApplicationManager.cpp:31-37 | the new service is created first, the old one destroyed after |
| `WorkerLifecycle.ApplicationManager.UseLibrary` | ArmoniK.SDK.DynamicWorker/src/ApplicationManager.cpp:59-83 | the new state and trace, in the same four cases |
| `WorkerLifecycle.ApplicationManager.Execute` | ArmoniK.SDK.DynamicWorker/src/DynamicWorker.cpp:71-86 | a convention or a legacy task through the manager |
| `LifecycleProofs.ExecutedIsRight` | ArmoniK.SDK.DynamicWorker/src/DynamicWorker.cpp:71-86 | without a stale cache the trace stays in order, and the call reaches a live service of the task's name in the task's session, in a library loaded from its path, or from base path, name and version; the namespace is right if and only if no service of another one was hit |
| `LifecycleProofs.StaleIsDisorder` | ArmoniK.SDK.DynamicWorker/src/ApplicationManager.cpp:12-83 | with a stale cache the trace goes out of order |
| `LifecycleProofs.InOrderExactly` | ArmoniK.SDK.DynamicWorker/src/ApplicationManager.cpp:12-83 | over every sequence of tasks and load results the trace is in order if and only if no task met a stale cache, and then at most one service and one library are alive |
| `LifecycleProofs.EveryCallIsRight` | ArmoniK.SDK.DynamicWorker/src/ServiceManager.cpp:28-58 | every call of such a sequence is right in that sense, with /data for an empty base path |
| `LifecycleProofs.SessionEvents` | ArmoniK.SDK.DynamicWorker/src/ServiceManager.cpp:28-58 | in the session that is open a call is all that is added to the trace; any other is entered after that one is left |
| `LifecycleProofs.HitEvents` | ArmoniK.SDK.DynamicWorker/src/ApplicationManager.cpp:12-83 | a task that finds its library and service adds what its session needs, and nothing else |
| `LifecycleProofs.MissEvents` | ArmoniK.SDK.DynamicWorker/src/ApplicationManager.cpp:12-83 | any other closes what is open, loads its library, unloads the one before, creates its service, enters its session and calls, in this order |
| `LifecycleProofs.FailedEvents` | ArmoniK.SDK.DynamicWorker/src/ApplicationManager.cpp:12-83 | one whose library is not there, or lacks a function, closes what is open and does not call |
| `LifecycleProofs.SuccessfulRunsAreInOrder` | ArmoniK.SDK.DynamicWorker/src/ApplicationManager.cpp:12-83 | as long as libraries load, or legacy ones are not found at all, everything is in order |
| `LifecycleProofs.StalePath` | ArmoniK.SDK.DynamicWorker/src/ApplicationManager.cpp:62-67 | three tasks, the second with a library that is not found, that are not |
| `LifecycleProofs.NamespaceKept` | ArmoniK.SDK.DynamicWorker/src/ApplicationManager.cpp:62-64 | two tasks of which the second is served in the namespace of the first |
| `LifecycleProofs.CreatedBeforeDestroyed` | ArmoniK.SDK.DynamicWorker/src/ApplicationManager.cpp:31-37 | the calls of a replacement in order: create, leave, destroy; in between both services are alive |
| `WorkerProcess.DynamicWorker.PrepareTask` | ArmoniK.SDK.DynamicWorker/src/DynamicWorker.cpp:27-73 | the branch for convention tasks: the blob of the task goes to its file, then payload and symbol are looked at |
| `WorkerProcess.DynamicWorker.Execute` | ArmoniK.SDK.DynamicWorker/src/DynamicWorker.cpp:21-90 | one task, from options and payload through the managers; the call has the arguments of this task |
| `WorkerProcess.UnderstoodExactly` | ArmoniK.SDK.DynamicWorker/src/DynamicWorker.cpp:26-80 | a task gets as far as the manager if and only if its version is v1, it has a symbol, a payload that decodes, and a path or a blob that it depends on; a task without version, if its payload decodes |
| `WorkerProcess.RefusedFor` | ArmoniK.SDK.DynamicWorker/src/DynamicWorker.cpp:26-80 | and any other is refused for the first of these that it lacks |
| `WorkerProcess.ArgumentsExactly` | ArmoniK.SDK.DynamicWorker/src/DynamicWorker.cpp:53-86 | the call is of the Symbol option, with exactly the names of the payload, each with the content of the dependency it names or with its own value |
| `WorkerProcess.LibraryFilesDiffer` | ArmoniK.SDK.DynamicWorker/src/DynamicWorker.cpp:45 | different blobs have different files, none of them empty |
| `WorkerProcess.WrittenExactly` | ArmoniK.SDK.DynamicWorker/src/DynamicWorker.cpp:38-50 | a task writes the content of its own blob to the file of that blob, and nothing else |
| `WorkerProcess.CalledOnItsFile` | ArmoniK.SDK.DynamicWorker/src/DynamicWorker.cpp:21-90 | over every sequence of tasks in which none meets a stale cache: a task is called if and only if it is understandable and its library is in place or can be loaded; the call reaches a live service of its name in its session, in a library loaded from the file of its blob, its path, or base path, name and version; and that file holds its blob |
| `WorkerProcess.CalledOnItsBlob` | ArmoniK.SDK.DynamicWorker/src/DynamicWorker.cpp:38-73 | and what is loaded is the content of the task's own blob, as long as the content of a blob id does not change and no task names the file of a blob as its path |
| `WorkerProcess.AliasedLibrary` | ArmoniK.SDK.DynamicWorker/src/ApplicationManager.cpp:62-67 | two tasks that show that the last condition is needed |
| `ChannelPools.ChannelPool.AcquireChannel` | ArmoniK.SDK.Client/src/ChannelPool.cpp:15-40 | the oldest channel unless it is shut down or in transient failure, else a new one; a run of the steps of its client |
| `ChannelPools.ChannelPool.ReleaseChannel` | ArmoniK.SDK.Client/src/ChannelPool.cpp:42-70 | back to the end of the queue unless it is shut down or in transient failure; a run of the steps of its client |
| `ChannelPools.ChannelsHaveOnePlace` | ArmoniK.SDK.Client/src/ChannelPool.cpp:15-91 | in every interleaving every channel is queued once, held by one client, or discarded, and the numbers add up |
| `ChannelPools.NoMoreChannelsThanClients` | ArmoniK.SDK.Client/src/ChannelPool.cpp:15-50 | never more open channels than there were clients at once |

## Left out

- SubmitLoop.WriteSlots: runs the spawned functions one after the other, without other clients, on a server that answers as it should; all other schedules are covered by the machine that it is a run of.
- SubmitLoop.RunCreation: runs the spawned functions one after the other, without other clients, on a server that answers as it should; all other schedules are covered by the machine that it is a run of.
- SubmitLoop.RunSubmission: runs the spawned functions one after the other, without other clients, on a server that answers as it should; all other schedules are covered by the machine that it is a run of.
- SubmitLoop.SubmitRaw: runs the spawned functions one after the other, without other clients, on a server that answers as it should; all other schedules are covered by the machine that it is a run of. Like the other methods of the module it asks for a message size above zero, without which the upload loop does not end (`LoopEndsExactly`).
- SubmitLoop.SubmitAndRecord: runs the spawned functions one after the other, without other clients, on a server that answers as it should; all other schedules are covered by the machine that it is a run of.
- DefinitionLoop.SubmitDefinitions: runs the spawned functions one after the other, without other clients, on a server that answers as it should; all other schedules are covered by the machine that it is a run of.
- WaitLoop.WaitResults: runs one wait without other clients in between, and its functions one after the other; all other interleavings are covered by `ResultWaiting`, which it is a run of.
- WaitLoop.AskAll: runs the listing requests one after the other and without other clients; all other interleavings are covered by `ResultWaiting`, which it is a run of.
- WaitLoop.DeliverAll: runs the deliveries one after the other and without other clients; all other interleavings are covered by `ResultWaiting`, which it is a run of.
- SubmitLoop.UploadJob: the server of this module keeps nothing of an attempt that fails.
- SubmitLoop.RunUpload: runs the spawned functions one after the other, without other clients, on a server that answers as it should; all other schedules are covered by the machine that it is a run of.
- SubmissionProgress.NeverStuck: a function that was spawned can run whatever the pool does; with a pool that has no thread none does, and then no barrier is passed (`NoThreadNoReturn`). With threads, `NoLostWakeup` and `PendingMovesExactly` say when the pool gets on.
- SubmissionProgress.CanAlwaysEnd: the same; nor do `RoundsAreNotStuck` and `StepsLeaveLess` say anything about a pool with no thread.
- PoolMachineProofs.AwakeCanStep: the functions themselves come to an end; those that wait on the pool are in `NestedWaits`, where a join set is waited on by the function that spawned onto it, as in SubmitRaw and WaitResults.
- Remote calls, their messages and their errors other than by failing; the session configuration; the creation and the closing of sessions.
- The truncation of indices to `int` in names, which needs more than 2^31 payloads; negative batch sizes; a message size near the limits of `size_t`.
- What an unrequested answer to a listing request would do to a wait: a request takes over what it has asked for.
- The lifetime of the local variables of a call that throws while functions it has spawned still run.
- The JSON text of convention payloads; a lossless encoding is a hypothesis of the end-to-end theorem. Invalid UTF-8 is not part of this model.
- `errno` left at ERANGE by an earlier call, which the decoder would take for its own.
- Deleting the data of a result after a corrupted upload, of cleaned up tasks and of dropped sessions, which goes to the server alone.
- A file that cannot be written; a service whose creation returns null; the status a call returns, its retries and its output.
- The destruction of the application manager itself, and the move constructor of the service manager.
- Empty application, session and library ids, which the scheduler does not hand out: `Valid` asks for them.
- Spurious wake-ups of a waiter of a join set are steps of the machine, and so are those of workers; fairness is not assumed, so that a task runs eventually is stated as: some step towards it is always enabled.
- Time: whether a deadline has passed is an input; logging and polling delays do not appear.
