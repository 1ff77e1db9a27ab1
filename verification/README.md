# Cognitive Foundry: a verified model

A Dafny model of the stateful cores of the Cognitive Foundry swarm, with proofs of what they keep. `dafny verify dfyconfig.toml` checks all of it.

| files | component |
|---|---|
| `TaskQueueModel`, `TaskQueuePlaces`, `TaskQueueLife`, `TaskQueueCounters`, `TaskQueueRuns`, `TaskQueueCallbacks`, `TaskQueueOrder`, `TaskQueueStalls`, `TaskQueueLosses`, `AsyncTaskQueue` | the asyncio task queue: a transition system, its invariants, theorems over all runs, and the class whose methods are its steps |
| `TokenBucket` | the rate limiter beside the queue |
| `TopologicalOrder`, `KahnOrder`, `BlueprintPlanner`, `Reflection`, `AutonomousLoop` | the workflow planner, Kahn's algorithm, the reflection node and the self-correcting loop |
| `LockedState`, `EventLog`, `PromptQueue` | locked persistence of the task state, the event log beside it, and the prompt queue |
| `GraphStore`, `MemoryGraph` | the graph memory and the agent histories kept in it |
| `VectorIndex`, `CorpusSync` | the two-table vector index and its synchronisation with the files on disk |
| `PhaseController`, `SdlcEngine` | gated phase transitions and the cycle driver |
| `SelfPrompt` | the sliding-window limiter, prompt synthesis and dispatch |
| `Tournament` | Elo updates and round-robin tournaments |
| `Common` | optional values, sums over maps, decimal numerals, blanks, hashes, lists as sets |

How the source's terms appear:

- In the task queue one event is the code between two `await`s, so a sequence of events is one interleaving of clients and workers. What a task body returns, and which worker runs next, is part of the event. Task ids and (priority, creation time) pairs are distinct, and the library's priority queue is atomic.
- The locked-state and prompt-queue protocols are steppers, one per process; each step is one system call, and a crash may come before any of them. A crash closes the lock file. All writers use these paths.
- Clocks, random rolls, agent answers, gate results, disk contents and database failures are arguments or arbitrary values, so a theorem holds for all of them. Clocks do not go back.
- Rating, token and time arithmetic is over the reals. The expected Elo score is any function of two ratings; that of the source gives equals half a point, which `Fair` says.
- SHA-256 and `json` are functions given to the model; where a theorem needs the hash injective or the encoding faithful and free of raw newlines, it says so. Lowercasing is per character and keeps lengths.
- The four per-agent dictionaries of the tournament engine, which always have the same keys, are one map of records.
- Attribute values of graph nodes are strings.

Where the documentation and the code disagree, the code is modelled:

- `submit` is documented to raise QueueFull (src/services/task_queue.py:335); it waits for room instead.
- `get_agent_history` is documented as most recent first (src/memory/memory_graph.py:70); it is oldest first.
- Gates are documented to stop at the first blocking failure (src/services/quality_gates.py:9-11); all of them are evaluated.

Properties that hold only under a condition are stated with the exact one: `TaskQueueLosses.LostExactlyInBackoff`, `TaskQueueStalls.HaltsExactly`, `TokenBucket.ExactSleepEndsIff`, `AutonomousLoop.ByTheSecondOrNever`, `EventDiffs.SetTells`, `StateManagers.SaveInPlace`, `CorpusSync.Syncer.Sync`, `SelfPromptLoop.RemembersIffFew`, `Tournament.TournamentEngine.RunTournament`. Runs that reach a bad state are given as witnesses: `TaskQueueStalls.RetryIntoFullQueueHalts`, `TaskQueueStalls.LastWorkerCanBeCancelled`, `TaskQueueLosses.StopTimeoutLosesATask`, `SelfPromptLoop.WriteTwice`.

## Model

| member | source | states |
|---|---|---|
| `AsyncTaskQueue.Queue.constructor` | src/services/task_queue.py:215-252 | a new queue is the initial state of the transition system, with no calls on record |
| `AsyncTaskQueue.Queue.Submit` | src/services/task_queue.py:337-356 | after any calls: the entry joins the queue and `_tasks` and is counted, and the call is one more step of the run the object is on; nothing else changes |
| `AsyncTaskQueue.Queue.Cancel` | src/services/task_queue.py:393-424 | true exactly for a task that is pending or running (a running one is always in `_running`), then counted once; otherwise nothing changes |
| `AsyncTaskQueue.Queue.Start` | src/services/task_queue.py:254-268 | a non-empty pool is left alone; otherwise the shutdown flag is cleared and new workers wait for work |
| `AsyncTaskQueue.Queue.Stop` | src/services/task_queue.py:275-299 | shutdown is set, every worker of the pool and every running task is asked to cancel, the running ones are marked and counted |
| `AsyncTaskQueue.Queue.CancelWorkers` | src/services/task_queue.py:288-289 | the loop requests cancellation of exactly the pool |
| `AsyncTaskQueue.Queue.MarkRunning` | src/services/task_queue.py:292-298 | the loop marks exactly the running tasks and counts each once |
| `AsyncTaskQueue.Queue.Pop` | src/services/task_queue.py:487-501 | every other queued task has a higher priority number, or the same and a later creation time; a cancelled task is skipped, any other is running on this worker and started once more |
| `AsyncTaskQueue.Queue.Finish` | src/services/task_queue.py:535-590 | completion, cancellation, backoff or failure, by the outcome and the retries left |
| `AsyncTaskQueue.Queue.Requeue` | src/services/task_queue.py:579-581 | the task goes back to the queue and its worker lets go of it |
| `AsyncTaskQueue.Queue.LetGo` | src/services/task_queue.py:592-622 | the `finally` block: `_running` loses the key, a callback that is there is fired and popped, and the worker goes on or ends |
| `AsyncTaskQueue.Queue.Deliver` | src/services/task_queue.py:507-509 | a CancelledError ends the worker at its await, and a task held in backoff is let go of |
| `AsyncTaskQueue.Queue.Poll` | src/services/task_queue.py:483-492 | the one-second wait runs out and the loop condition is looked at again |
| `AsyncTaskQueue.Queue.CallbackDone` | src/services/task_queue.py:615-622 | an asynchronous callback returns, and a pending CancelledError then ends the worker |
| `AsyncTaskQueue.Queue.StopTimeout` | src/services/task_queue.py:300-306 | the wait runs out, which cancels the workers waited for once more |
| `AsyncTaskQueue.Queue.StopFinish` | src/services/task_queue.py:300-309 | the wait is over and the pool is emptied |
| `AsyncTaskQueue.Queue.GetMetrics` | src/services/task_queue.py:448-456 | after any calls the counters of the object are what its tasks say |
| `AsyncTaskQueue.OnePlace` | src/services/task_queue.py:346-593 | after any calls a task of the object is in exactly one place, and in `_running` exactly when a worker holds it |
| `TaskQueueRuns.ExactlyOnePlace` | src/services/task_queue.py:346-531 | in every interleaving each submitted task is queued once, or held by one worker, or was let go of once, and never two of these; it is in `_running` exactly when held |
| `TaskQueueRuns.RunningEntryIsThere` | src/services/task_queue.py:531-593 | no task is on two workers, so `del self._running[task.id]` always finds its key |
| `TaskQueueRuns.FinalForever` | src/services/task_queue.py:538-585 | a COMPLETED or FAILED task is never changed again by any further steps |
| `TaskQueueRuns.AttemptsBounded` | src/services/task_queue.py:563-585 | a task is started at most `max_retries + 1` times; FAILED means all of them, COMPLETED means one more than its retries |
| `TaskQueueRuns.AttemptEnds` | src/services/task_queue.py:535-590 | a body that returns completes its task, a cancelled one cancels it and ends the worker, one that raises is retried while retries are left and fails the task otherwise; each is counted once |
| `TaskQueueRuns.BackoffSchedule` | src/services/task_queue.py:565-577 | the sleep before retry k is the smaller of 2^(k-1) and 60, whatever happened in between |
| `TaskQueueRuns.MetricsExact` | src/services/task_queue.py:347-590 | over all runs: submitted, completed, failed and retry counters equal what the tasks themselves say |
| `TaskQueueRuns.CancelledAccounting` | src/services/task_queue.py:292-552 | `tasks_cancelled` is the number of CANCELLED tasks plus exactly the overcount of the steps of the run; it is never too small |
| `TaskQueueRuns.CancelRunningCountsTwice` | src/services/task_queue.py:416-554 | cancelling a running task whose body then stops counts it twice and ends the worker that ran it |
| `TaskQueueCallbacks.CallbackFiresAfterFirstAttempt` | src/services/task_queue.py:592-622 | from its submission on, in every state of every run: a callback has fired if and only if there is one and the first attempt has been let go of, also when a retry follows; it fires once, and is told of a success exactly when the first attempt completed the task |
| `TaskQueueOrder.IdleWorkerTakesOne` | src/services/task_queue.py:483-501 | in every reachable state an idle worker has exactly one task to take as long as anything is queued |
| `TaskQueueOrder.PopTakesLowest` | src/services/task_queue.py:50-58 | what a worker may take has the lowest priority number of all queued, the earliest creation time among equals |
| `TaskQueueOrder.NotOvertaken` | src/services/task_queue.py:50-58 | along any run, while a task stays queued, none with a higher number, or made later with the same, is begun |
| `TaskQueueOrder.NothingElseIsWaitedFor` | src/services/task_queue.py:346-502 | `submit` waits for room and nothing else, a cancellation reaches a worker wherever it does not await its task body, and `stop` returns just when its workers have ended |
| `TaskQueueStalls.HaltedIffNoneMoves` | src/services/task_queue.py:254-531 | with a pool and no `stop()` under way, all workers have ended or wait for a full queue if and only if no worker has a step to make |
| `TaskQueueStalls.HaltsExactly` | src/services/task_queue.py:254-581 | over all runs without `stop()`: the queue has halted if and only if cancelled bodies and retries waiting for room together are as many as the workers; an unbounded queue with fewer cancelled bodies than workers never halts |
| `TaskQueueStalls.HaltedForever` | src/services/task_queue.py:254-531 | a queue whose workers have all ended or wait for a full queue begins no task again without a `stop()` |
| `TaskQueueStalls.RetryIntoFullQueueHalts` | src/services/task_queue.py:577-581 | a bounded queue reaches that state: a retry waits for room that only its own worker could make |
| `TaskQueueStalls.CancellingTheLastWorkerHalts` | src/services/task_queue.py:256-509 | cancelling the task on the last live worker halts the queue, one step later if its callback is asynchronous, and `start()` does not revive it |
| `TaskQueueStalls.LastWorkerCanBeCancelled` | src/services/task_queue.py:416-554 | a run that gets there with one `cancel`, which is then counted twice |
| `TaskQueueLosses.LostIffLoses` | src/services/task_queue.py:535-593 | the exact step: a task is lost, in no place and without a final status, if and only if a CancelledError reaches a worker in backoff whose task is still PENDING |
| `TaskQueueLosses.LostExactlyInBackoff` | src/services/task_queue.py:275-593 | over all runs: no state has a lost task if and only if no step is such a delivery |
| `TaskQueueLosses.ReleasedForever` | src/services/task_queue.py:393-531 | a task let go of, lost or not, is never begun again; only a `cancel` can still change the status of a lost one |
| `TaskQueueLosses.ReleasedTasksAreFinal` | src/services/task_queue.py:275-593 | only a `stop()` that times out gets there: without one, a task that is nowhere has a final status |
| `TaskQueueLosses.StopTimeoutLosesATask` | src/services/task_queue.py:300-309 | a run in which `stop()` times out and a PENDING task is in no place at all |
| `TokenBucket.RateLimiter.TryAcquire` | src/services/task_queue.py:182-198 | one locked section of `acquire`: the refilled balance decides, a grant costs one token, a refusal empties the bucket and tells the wait |
| `TokenBucket.StepBudget` | src/services/task_queue.py:184-197 | tokens stay between 0 and the burst size, and a grant is paid for by tokens in hand and time gone by |
| `TokenBucket.StaysFilled` | src/services/task_queue.py:182-199 | 0 <= tokens <= burst over any sequence of calls |
| `TokenBucket.GrantsBounded` | src/services/task_queue.py:182-199 | in any interval (s, t] at most burst + rate * (t - s) calls are granted |
| `TokenBucket.NextTry` | src/services/task_queue.py:194-199 | a lone caller refused at balance t that oversleeps by d is granted next time if and only if d * rate >= t |
| `TokenBucket.ExactSleepStarves` | src/services/task_queue.py:194-199 | with exact sleeps the balance seen alternates between t and 1 - t, so a caller with 0 < t < 1 is never granted |
| `TokenBucket.ExactSleepEndsIff` | src/services/task_queue.py:194-199 | with exact sleeps some retry is granted if and only if t = 0 |
| `KahnOrder.TopologicalOrder` | src/orchestration/blueprint_planner.py:41-64 | a KeyError exactly for an unknown dependency; otherwise a normal return exactly when ids are distinct and the graph is acyclic, and then a permutation with every step after all its dependencies |
| `KahnOrder.EnterEdges` | src/orchestration/blueprint_planner.py:46-48 | the inner loop counts and lists each dependency, up to the first that no step has |
| `KahnOrder.ReleaseNeighbors` | src/orchestration/blueprint_planner.py:57-60 | in-degrees stay the number of open dependencies, and the queue the ids without any |
| `KahnOrder.PopOne` | src/orchestration/blueprint_planner.py:52-60 | one turn of the loop keeps the queue the frontier and the output topological |
| `Graphs.TrappedSetHasCycle` | src/orchestration/blueprint_planner.py:62-63 | if every id of a non-empty set waits for another of it, the graph has a cycle |
| `Graphs.TopologicalIsAcyclic` | src/orchestration/blueprint_planner.py:62-64 | a topological order excludes cycles |
| `BlueprintPlanner.Plan` | src/orchestration/blueprint_planner.py:105-150 | the first of auth, refactor, feature and test in the lowered goal, and feature without any, gives the actions, agents and outputs listed in the source; steps are numbered in a chain, and three or more are followed by a reflection step |
| `BlueprintPlanner.NumberedSteps` | src/orchestration/blueprint_planner.py:119-132 | the loop with its action map gives each step the id of its position and the previous step as dependency |
| `BlueprintPlanner.Replan` | src/orchestration/blueprint_planner.py:152-187 | nothing without gaps; otherwise one fix per gap, named after its position, and a verify step, each after the last |
| `BlueprintPlanner.ReplanSteps` | src/orchestration/blueprint_planner.py:160-181 | the text of every step that a replan adds: the first 40 characters of the gap, its number, its dependency, and the verification of the last |
| `BlueprintPlanner.PlansStayOrdered` | src/orchestration/blueprint_planner.py:105-187 | for any goal and any gaps: old steps are a prefix, every dependency occurs earlier, only the id of the verify step can repeat, and ids are distinct exactly up to the first round with gaps |
| `BlueprintPlanner.DistinctIffOneVerify` | src/orchestration/blueprint_planner.py:162-180 | ids are distinct exactly when there is at most one verify step |
| `BlueprintPlanner.OnlyVerifyRepeats` | src/orchestration/blueprint_planner.py:164-175 | `step_fix_` ids never collide with each other or with planned ones |
| `BlueprintPlanner.ChainOrderIsUnique` | src/orchestration/blueprint_planner.py:41-64 | a chain has one topological order, its own list order |
| `Reflection.Evaluate` | src/orchestration/reflection_node.py:34-58 | gaps and suggestions are the unmet criteria in order, with their texts; success exactly when all are met; confidence 0.8, 0.6 and then one half |
| `Reflection.UnmetAre` | src/orchestration/reflection_node.py:45-48 | the gaps are exactly the criteria without a keyword in the output |
| `TextMatch.WordsHaveNoSpace` | src/orchestration/reflection_node.py:62 | words of a criterion contain no whitespace |
| `TextMatch.WholeWordIsSplit` | src/orchestration/reflection_node.py:62 | every maximal run of non-space characters is one of the words |
| `Execution.SimulateExecution` | src/services/autonomous_loop.py:108-120 | one line per step in some order that respects dependencies, or list order where none exists; for the plans of the planner both branches give the lines in list order |
| `Execution.OutputLines` | src/services/autonomous_loop.py:117-120 | the text of every line, joined by newlines |
| `Execution.MetIffLine` | src/orchestration/reflection_node.py:60-64 | what an output meets depends only on its set of lines |
| `Execution.MetStaysMet` | src/services/autonomous_loop.py:86-88 | a criterion met on one attempt is met after any replan |
| `Execution.TriedAgain` | src/services/autonomous_loop.py:86-88 | replanning for criteria whose fixes are there already changes nothing about what is met |
| `Execution.FixMeets` | src/orchestration/blueprint_planner.py:165 | the 40-character quotation in a fix step meets a criterion with a long word within its first 21 characters |
| `RetryLoop.Stuck` | src/services/autonomous_loop.py:64-88 | where replanning changes no gap the remaining attempts are all made and all fail alike |
| `AutonomousLoop.ByTheSecondOrNever` | src/services/autonomous_loop.py:64-101 | `run` succeeds on the first attempt, on the second, or never; which one is decided by the plan and one round of fixes |
| `AutonomousLoop.RunEndingMeans` | src/services/autonomous_loop.py:64-101 | success is an ending in which the last plan meets every criterion, failure one that used every attempt |
| `AutonomousLoop.QuotableSucceeds` | src/services/autonomous_loop.py:64-101 | with two attempts or more, `run` succeeds by the second when every criterion has a word over three characters within its first 21 |
| `AutonomousLoop.NoLongWordFails` | src/services/autonomous_loop.py:64-101 | one criterion without a word over three characters forces exactly `max_retries` attempts |
| `AutonomousLoop.TryAll` | src/services/autonomous_loop.py:64-88 | the loop ends as the retry loop over plans says |
| `AutonomousLoop.AutonomousLoop.Run` | src/services/autonomous_loop.py:45-102 | the result is that ending; exactly one outcome is recorded, a success only for a result whose plan meets every criterion, with the number of attempts; with no allowed attempt it records a failure and then fails on an unbound name |
| `LockedState.MutualExclusion` | src/utils/file_lock.py:95-120 | at most one process is between lock and unlock |
| `LockedState.LockIsInUse` | src/utils/file_lock.py:95-120 | the lock is never left behind, by a crash or a failure |
| `LockedState.EveryoneMoves` | src/state.py:114-167 | every process has a step to make unless it waits for a lock that is held; one that failed gives the lock up and changes nothing |
| `LockedState.OperationCompletes` | src/state.py:87-213 | a save or delete that nobody disturbs runs to its return, the file differs in just that task, and the in-memory state is the new file |
| `LockedState.LastCommitDecides` | src/state.py:173-213 | no lost update: what the file holds for a task is what the last commit about it said |
| `LockedState.FileIsFoldOfCommits` | src/state.py:114-167 | with any number of processes and a crash possible at any step, the file is the fold of the committed mutations in commit order; a file that does not parse is never replaced |
| `LockedState.CommitsOnlyGrow` | src/state.py:97 | no commit is ever undone |
| `LockedState.UnlockedReadersSeeCommits` | src/state.py:87-103 | an unlocked reader, however late it reads, gets the whole file as it was when it opened it |
| `LockedState.ReturnedMeansCommittedOnce` | src/state.py:173-213 | the operations of a process that returned are its commits in order, once each; at most one more is unreported; its in-memory state is some committed version |
| `LockedState.InvariantKept` | src/state.py:114-167 | every step of every process keeps the protocol invariant |
| `StateManagers.StateManager.SetTask` | src/state.py:173-189 | file and memory take the task, and the logged diff is between the dictionary in memory and the new one |
| `StateManagers.StateManager.DeleteTask` | src/state.py:197-213 | the task is gone from file and memory, the event carries the diff of what was in memory against nothing, and the log still tells the file |
| `StateManagers.StateManager.ComputeDiff` | src/state.py:275-283 | exactly the keys whose values differ, with the old and the new value, a missing key reading as None |
| `StateManagers.StateManager.RecordPhaseTransition` | src/state.py:248-273 | a transition event changes nothing about what the log tells |
| `StateManagers.StateManager.GetTaskHistory` | src/state.py:215-229 | the events of one task, in order |
| `EventDiffs.HistoryIsFilter` | src/state.py:215-229 | none of them is missing |
| `EventDiffs.SetTells` | src/state.py:175-189 | after a SET, replaying the log gives the state exactly when the diff agrees with what was stored wherever it reports no change |
| `EventDiffs.DeleteTells` | src/state.py:197-213 | a DELETE never breaks the replay |
| `EventDiffs.PatchIsRight` | src/state.py:275-283 | applying the diff gives the new task, None-valued keys aside, under exactly that condition |
| `EventDiffs.SelfDiffFits` | src/services/phase_store.py:59-64 | a dictionary diffed against itself fits only when nothing changed but None-valued keys |
| `EventDiffs.HistoryRebuilds` | src/state.py:215-229 | the events of one task alone rebuild it |
| `StateManagers.SaveFresh` | src/state.py:173-189 | a caller with its own dictionary keeps the log telling the file |
| `StateManagers.SaveInPlace` | src/services/phase_store.py:59-64 | a caller that changes the dictionary it was given breaks the replay exactly when the task was there, not empty, and changed in more than None-valued keys |
| `QueueText.ReadsBack` | src/cli/swarm_ctl.py:61-84 | reading appended lines back gives the entries, whatever follows |
| `QueueText.QueueFile.Enqueue` | src/cli/swarm_ctl.py:54-61 | the entry is at the end of the queue |
| `QueueText.QueueFile.Dequeue` | src/cli/swarm_ctl.py:64-91 | everything queued, oldest first, and an empty file |
| `QueueText.QueueFile.Peek` | src/cli/swarm_ctl.py:94-109 | everything queued |
| `QueueText.ReadLines` | src/cli/swarm_ctl.py:78-84 | the loop over lines gives the entries of the text, skipping blank and undecodable lines |
| `PromptQueue.FirstInFirstOut` | src/cli/swarm_ctl.py:54-109 | in every interleaving the batches taken, in lock order, and then the file are the appended entries in lock order |
| `PromptQueue.TakenIsDelivered` | src/cli/swarm_ctl.py:76-91 | a dequeuer is given all it took; only a crash between truncation and return loses a batch |
| `PromptQueue.PeekSeesAll` | src/cli/swarm_ctl.py:94-109 | a peek returns exactly what is queued when it holds the lock and takes nothing |
| `PromptQueue.MutualExclusion` | src/utils/file_lock.py:95-120 | at most one process is in its critical section |
| `PromptQueue.LockIsInUse` | src/utils/file_lock.py:95-120 | the lock is never left behind |
| `PromptQueue.CallBegins` | src/cli/swarm_ctl.py:54-99 | to enqueue creates the file; without one there is nothing to dequeue or peek at and the call returns at once |
| `PromptQueue.EnqueueCompletes` | src/cli/swarm_ctl.py:54-61 | undisturbed, an enqueue puts its entry last |
| `PromptQueue.DequeueCompletes` | src/cli/swarm_ctl.py:64-91 | undisturbed, a dequeue gives its caller everything queued and leaves nothing |
| `PromptQueue.PeekCompletes` | src/cli/swarm_ctl.py:94-109 | undisturbed, a peek shows everything queued and leaves it |
| `GraphMemory.GraphStore.AddNode` | src/memory/graph_store.py:40-54 | the id is `node_` and the next number of the counter; the node is stored as given, last in the order and without edges |
| `GraphMemory.GraphStore.AddEdge` | src/memory/graph_store.py:61-65 | the graph with that edge |
| `GraphMemory.EdgeIsAdded` | src/memory/graph_store.py:61-65 | an edge to the same node is replaced where it stands, a new one goes to the end, missing endpoints become bare nodes, and nothing else changes |
| `GraphMemory.GraphStore.QueryRelated` | src/memory/graph_store.py:127-150 | the answer of the breadth-first search, for any graph |
| `GraphMemory.RelatedIsExact` | src/memory/graph_store.py:127-150 | a node is answered exactly when its shortest label-matching path from the start has 1 to `max_depth` edges |
| `GraphModel.LeadsMeans` | src/memory/graph_store.py:143-145 | the edges that count are those with the label asked for, or all when none is asked for |
| `GraphMemory.RelatedInOrder` | src/memory/graph_store.py:127-150 | each node once, in nondecreasing distance |
| `GraphMemory.GraphStore.QueryByType` | src/memory/graph_store.py:114-118 | the nodes of a type in insertion order |
| `GraphMemory.OfKindFrom` | src/memory/graph_store.py:114-118 | none of that type is missing |
| `GraphMemory.GraphStore.Save` | src/memory/graph_store.py:86-95 | the nodes and, node by node, their out-edges |
| `GraphMemory.GraphStore.Load` | src/memory/graph_store.py:97-112 | what loading the file into the present graph gives |
| `GraphMemory.SaveLoadRoundTrip` | src/memory/graph_store.py:86-112 | loading a saved graph into a new store restores node order, attributes, out-edge order and the id counter |
| `AgentMemory.MemoryGraph.RecordTask` | src/memory/memory_graph.py:33-63 | the run is added at the end of those the store represents, whatever was recorded before, and its task node is stored with status completed and the metadata |
| `AgentMemory.MemoryGraph.GetAgentHistory` | src/memory/memory_graph.py:69-92 | exactly the recorded (task, outcome) pairs of the agent, oldest first |
| `AgentHistory.HistoryIsRunsOf` | src/memory/memory_graph.py:82-91 | each item is the task of a run and the word for its outcome, for just the runs of that agent |
| `AgentMemory.MemoryGraph.FindAgent` | src/memory/memory_graph.py:49-54 | the first agent node of that name |
| `AgentHistory.AgentByName` | src/memory/memory_graph.py:49-56 | recording never makes a second node for an agent, so the first of its name is its node |
| `AgentHistory.NextIdIsNew` | src/memory/graph_store.py:36-38 | the next id is not in use |
| `AgentMemory.HistorySurvivesReload` | src/memory/graph_store.py:86-112 | histories, and the ids made next, survive saving and loading |
| `VectorIndex.SqliteVecBackend.Upsert` | src/services/vector_index.py:209-236 | the document is stored with its vector, or nothing changes, whichever statement raises |
| `VectorIndex.SqliteVecBackend.WriteRows` | src/services/vector_index.py:215-236 | the writes of the transaction happen all or not at all |
| `VectorIndex.SqliteVecBackend.Delete` | src/services/vector_index.py:238-249 | the document is gone from both tables, or nothing changes |
| `VectorIndex.SqliteVecBackend.KnownDocIds` | src/services/vector_index.py:251-273 | the documents whose stored corpus is wanted |
| `VectorIndex.PutKeepsStep` | src/services/vector_index.py:215-236 | both tables keep the same rowids, documents stay unique, and each vector embeds the text beside it |
| `CorpusSync.Syncer.Sync` | src/services/retrieval_context.py:451-528 | it raises if and only if a call it makes does; even then the cache stays right and other corpora are untouched; on success the index is right exactly when what the cache skipped was, the count is that of the readable non-empty files, and a next sync would skip them all |
| `CorpusSync.Syncer.SyncFromRightCache` | src/services/retrieval_context.py:451-528 | from a right cache a sync that does not raise makes the index right |
| `CorpusSync.Syncer.UploadOne` | src/services/retrieval_context.py:483-506 | skip, or mark and upsert; on a raise the index is as it was and the document has no cache entry |
| `CorpusSync.Syncer.DropStale` | src/services/retrieval_context.py:515-526 | exactly the documents in scope without a file are dropped, with their cache entries; on a raise some of them, each from both |
| `CorpusSync.Syncer.SyncToNull` | src/services/retrieval_context.py:467-528 | the placeholder backend leaves the cache alone |
| `CorpusSync.OthersKept` | src/services/retrieval_context.py:508-526 | wherever a sync stops, documents of corpora it was not asked for are as they were |
| `CorpusSync.RightIffSkipsSound` | src/services/retrieval_context.py:451-528 | the exact condition, for every listing, index and cache |
| `CorpusSync.RightCacheSkipsSoundly` | src/services/retrieval_context.py:487-493 | with an injective hash a right cache skips only what is indexed already |
| `SdlcPhase.HistoryLength` | src/services/sdlc_phase.py:49-59 | from PLAN without force, the history is as long as the phase index plus two for every rework |
| `SdlcPhase.EarlierPhasesVisited` | src/services/sdlc_phase.py:49-59 | a phase reached without force has every earlier phase behind it |
| `PhaseGates.PhaseController.AdvanceTo` | src/services/phase_controller.py:74-135 | six transitions are allowed; the item moves exactly when forced, or allowed with every blocking gate passed; a refused or blocked call leaves it alone; the logged event says which; the history stays a chain; OPERATE has no unforced way out |
| `PhaseGates.PhaseController.Evaluate` | src/services/phase_controller.py:171-189 | the results of all gates for the target, in order |
| `PhaseGates.EveryGateReports` | src/services/phase_controller.py:171-189 | no gate is skipped because an earlier one failed |
| `PhaseGates.ResultsFrom` | src/services/phase_controller.py:171-189 | the results are those of just the gates for the target, in order |
| `PhaseGates.PassedFrom` | src/services/phase_controller.py:108 | the evidence is the names of just the gates that passed, in order |
| `PhaseGates.CrashBlocks` | src/services/phase_controller.py:178-188 | a blocking gate that crashes blocks |
| `PhaseGates.PhaseController.DecideRework` | src/services/phase_controller.py:137-167 | stop on pass, the builder on anything but a block while retries are left, the critic otherwise; one event with the reason is logged |
| `ReviewText.ExtractStatus` | src/autonomous_sdlc.py:119-139 | always one of the three verdicts |
| `ReviewText.FirstNamedStatusDecides` | src/autonomous_sdlc.py:131-133 | the leftmost `Status:` that is followed by a verdict decides |
| `ReviewText.WithoutStatus` | src/autonomous_sdlc.py:134-139 | without one, `block` blocks, any of retry, fail, issue and concern asks for a retry, and everything else passes |
| `ReviewText.RenderedStatusIsRead` | src/services/structured_output.py:166-177 | a verdict rendered with its status line first is read back |
| `SdlcEngine.Engine.ReviewLoop` | src/autonomous_sdlc.py:552-591 | approved only when the last review passes, rejected only when it blocks or does not pass with the retries used up, and no earlier review did either; builds equal reviews, at least one, at most the larger of 1 and the retry limit; what is approved is the last build that made anything |
| `SdlcEngine.Engine.RunCycle` | src/autonomous_sdlc.py:490-622 | delivered only after the last review passed; failed when the first build made nothing, the review rejects, or delivery fails; nothing is done exactly when nothing was selected; from a fresh item the transitions are a prefix of the ladder, all of it exactly on delivery; builds equal reviews unless the cycle raised or its first build made nothing; with working storage a cycle counts one task at most |
| `SdlcEngine.Engine.Deliver` | src/autonomous_sdlc.py:606-622 | delivered exactly when OPERATE is reached; a failure is caught and counted |
| `SdlcEngine.Engine.Run` | src/autonomous_sdlc.py:624-676 | exactly MAX_CYCLES cycles unless shutdown is requested, so the retry decision never stops it sooner; completed + failed <= cycles with working storage, three times that without |
| `SlidingWindow.IntervalHoldsAtMost` | src/services/self_prompt.py:218-226 | any closed interval of at most 3600 seconds holds at most `max_per_hour` grants |
| `SlidingWindow.GrantKeepsLimit` | src/services/self_prompt.py:218-226 | a grant made while the window has room keeps the spacing of all grants |
| `SelfPromptLoop.RateLimiter.TryConsume` | src/services/self_prompt.py:218-226 | granted if and only if the 3600 seconds that end now hold fewer than `max_per_hour` grants; what is saved is the window of the last grant |
| `SelfPromptLoop.RateLimiter.constructor` | src/services/self_prompt.py:196-208 | a limiter made from the saved window, as after a restart, limits as the old one did |
| `SelfPrompts.Synthesize` | src/services/self_prompt.py:229-259 | nothing from generation 2 on; otherwise the first prompt of each new key, in order |
| `SelfPrompts.SynthesizedFrom` | src/services/self_prompt.py:245-258 | each prompt carries over the first signal of its key, in order |
| `SelfPrompts.SynthesizedAreNew` | src/services/self_prompt.py:244-258 | each key once, and none that was seen |
| `SelfPrompts.SynthesizedCovers` | src/services/self_prompt.py:244-258 | every signal's key was seen or is among the prompts |
| `SelfPrompts.KeyIdentifies` | src/services/self_prompt.py:67-69 | a key is the hash of the phase, a bar and the stripped, lowered intent; with an injective hash it stands for one phase and one normalised intent |
| `SelfPromptLoop.Dispatch` | src/services/self_prompt.py:286-300 | what is accepted is a prefix, all of it unless the hour is full, and the queue grows by just that |
| `SelfPromptLoop.RunOnce` | src/services/self_prompt.py:308-360 | the new prompts are written, or a prefix of them once the hour is full; the dedup list keeps the last 200 of the old set and the keys written |
| `SelfPromptLoop.StillRemembers` | src/services/self_prompt.py:348-349 | listing the set in any order and keeping the last 200 loses no key while there are no more |
| `SelfPromptLoop.RemembersIffFew` | src/services/self_prompt.py:348-349 | the exact condition: the list knows just the keys written if and only if there are at most 200 |
| `SelfPromptLoop.WriteAgain` | src/services/self_prompt.py:308-360 | beyond 200 keys: a pass that meets the signal of a forgotten key writes it a second time, unless the hour is full |
| `SelfPromptLoop.WriteTwice` | src/services/self_prompt.py:308-360 | from an empty state two passes write a key twice, for any signals with more than 200 keys |
| `SelfPromptLoop.Passes` | src/services/self_prompt.py:308-360 | over any number of passes and restarts: the hourly bound, no key twice while at most 200 have been written, the list exact just then, and every signal of an active pass written unless some hour was full |
| `EloTable.MatchCounts` | src/harness/tournament_engine.py:81-97 | a win is one more win for the winner and one more loss for the other, a tie one more tie for both, and nothing else |
| `EloTable.MatchRatings` | src/harness/tournament_engine.py:81-100 | the ratings move by the K factor times the score less its expectation: the winner rises and the loser falls |
| `EloTable.MatchKeepsTotals` | src/harness/tournament_engine.py:73-100 | a match between two agents conserves total rating and adds as many wins as losses |
| `EloTable.SelfMatchTotals` | src/harness/tournament_engine.py:73-100 | an agent listed twice that meets itself gets two games, and the total changes by how much the expected score beats the score |
| `EloTable.AgentKeepsBalance` | src/harness/tournament_engine.py:63-68 | a new agent adds the initial rating and no games |
| `EloTable.SelfMatchCosts` | src/harness/tournament_engine.py:102-128 | when equals expect half a point, a self-match ties and costs nothing if ties are possible, and otherwise costs half the K factor |
| `RoundRobin.EveryPairOnce` | src/harness/tournament_engine.py:152-156 | every two agents meet once, the earlier one first, in n(n-1)/2 matches |
| `Tournament.TournamentEngine.UpdateElo` | src/harness/tournament_engine.py:73-100 | ratings and counts of the two sides after the match, written in the order of the code, all others unchanged |
| `Tournament.TournamentEngine.PlayMatch` | src/harness/tournament_engine.py:102-140 | a tie exactly when the scores differ by less than the threshold, otherwise the higher score wins, the second agent at equal scores; the winner has one more win, the other one more loss |
| `Tournament.TournamentEngine.PlayRounds` | src/harness/tournament_engine.py:110-118 | the scores are the high and the low rolls of the first agent; one score for both sides of a self-match |
| `Tournament.HighCounts` | src/harness/tournament_engine.py:114 | high rolls are those above 0.55, the bias added |
| `Tournament.LowCounts` | src/harness/tournament_engine.py:116 | low rolls are those below 0.45 |
| `Tournament.TournamentEngine.RunTournament` | src/harness/tournament_engine.py:142-164 | for any list and over any sequence of tournaments: the new matches are the pairs of the list in order; the wins, losses and ties of every agent grow by the new matches it won, lost and tied, n - 1 games for each time it is listed and none for others; total rating is conserved but for the exact cost of self-matches, of which there are none if and only if agents are distinct |
| `Tournament.DistinctNeverMeet` | src/harness/tournament_engine.py:152-156 | a round robin has no self-match if and only if its agents are distinct |
| `Tournament.EveryonePlayed` | src/harness/tournament_engine.py:152-156 | the final schedule gives each agent its games |

## Left out

- Task queue: `task_done` and `join`, wait and execution time sums, histograms, `TaskQueueManager` and the default task handler; they only add easy members.
- TokenBucket: floating-point rounding; a rate of zero or less, for which the wait is not defined.
- Planner and loop: estimated durations, step inputs, historical notes and `find_similar`, which only read the memory and do not change an outcome.
- Text: Unicode case folding that changes lengths.
- LockedState: the platforms without `fcntl`, where the lock is a no-op, and leftover temporary files.
- PromptQueue: a record torn by a crash in the middle of one `write`; an append is one step.
- EventLog: the in-memory storage type, tenant file names, and equality between numbers of different types.
- GraphStore: the order of in-edges after loading, `neighbors`, `predecessors` and `edges_from`; the JSON text of the saved file.
- VectorIndex: nearest-neighbour search and score arithmetic, `clear`, and backends without `known_doc_ids`.
- CorpusSync: two syncs interleaved; corpus names are taken as already stripped and lowered.
- PhaseController: evidence payloads of gate results beyond pass and blocking flags, and the phase store's serialisation.
- SdlcEngine: campaigns with MAX_CYCLES of zero, which never end, the sleep between cycles, and the choice of the task.
- SdlcEngine.Engine.Run: without working storage only the bound of three counts per cycle is stated, not which write failed.
- ReviewText.ExtractStatus: the case-insensitive match is by per-character lowercasing.
- SelfPrompt: the collectors of gap signals, and a crash between dispatching and saving the dedup list.
- Tournament: match durations and the rounding in the rankings.
- Components not modelled: LLM calls, GitHub, MCP, web and CLI surfaces, cost tracking, embedding quotas, model routing and content guards.
