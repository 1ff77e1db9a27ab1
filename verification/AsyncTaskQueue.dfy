/**
 The queue object itself: its fields, and one method per stretch of code between two `await`s. The object keeps a
 record of its calls, every method adds one event to it, and the object is always where that run of the transition
 system leads. So what holds over all runs holds of the object after any calls; `OnePlace` and `GetMetrics` say two
 such things.
 */
module AsyncTaskQueue {
  import opened TaskQueueModel
  import opened TaskQueuePlaces
  import opened TaskQueueLife
  import opened TaskQueueCounters
  import opened TaskQueueRuns
  import opened TaskQueueOrder

  class Queue {
    const maxsize: int
    const maxWorkers: nat
    var tasks: map<TaskId, Task>
    var queue: multiset<TaskId>
    var running: set<TaskId>
    var workers: map<WorkerId, Worker>
    var pool: set<WorkerId>
    var shutdown: bool
    var stops: seq<StopCall>
    var metrics: Metrics
    ghost var released: multiset<TaskId>
    ghost var reports: seq<CallbackReport>
    /** The calls so far, and the states between them. */
    ghost var events: seq<Event>
    ghost var states: seq<State>

    ghost function Snapshot(): State
      reads this
    {
      State(maxsize, maxWorkers, tasks, queue, running, workers, pool, shutdown, stops, metrics, released, reports)
    }

    ghost predicate Valid()
      reads this
    {
      IsTrace(states, events) && states[0] == Init(maxsize, maxWorkers) && states[|events|] == Snapshot()
    }

    /** One more call, which was possible, has taken the object one step on. */
    twostate predicate Took(e: Event)
      reads this
    {
      Valid() && events == old(events) + [e] && Enabled(old(Snapshot()), e) && Snapshot() == Next(old(Snapshot()), e)
    }

    constructor (maxWorkers: nat, maxsize: int)
      ensures Valid() && Snapshot() == Init(maxsize, maxWorkers) && events == []
    {
      this.maxWorkers, this.maxsize := maxWorkers, maxsize;
      tasks, queue, running := map[], multiset{}, {};
      workers, pool, shutdown, stops := map[], {}, false, [];
      metrics := Metrics(0, 0, 0, 0, 0);
      released, reports := multiset{}, [];
      events, states := [], [Init(maxsize, maxWorkers)];
    }

    /** The calls so far are a run of the transition system. */
    lemma IsRun()
      requires Valid()
      ensures Run(Init(maxsize, maxWorkers), events, Snapshot()) && Inv(Snapshot())
    {
      TraceIsRun(states, events);
      Reachable(maxsize, maxWorkers, events, Snapshot());
    }

    /** The running entry of a task that a worker holds is there. */
    lemma HeldIsRunning(w: WorkerId)
      requires Valid() && w in workers && (workers[w].pc.Running? || workers[w].pc.Backoff?)
      ensures workers[w].pc.task in running && workers[w].pc.task in tasks
    {
      IsRun();
      RunningEntryIsThere(maxsize, maxWorkers, events, Snapshot(), w, w);
    }

    lemma RunningAreTasks()
      requires Valid()
      ensures running <= tasks.Keys
      ensures forall t :: t in tasks && tasks[t].status == RUNNING ==> t in running
    {
      IsRun();
      forall t | t in running ensures t in tasks {
        assert Placed(Snapshot(), t);
      }
      forall t | t in tasks && tasks[t].status == RUNNING ensures t in running {
        RunningStatusIsHeld(Snapshot(), t);
      }
    }

    /** Puts a call on record. */
    ghost method Record(e: Event, before: State)
      requires IsTrace(states, events) && states[0] == Init(maxsize, maxWorkers) && states[|events|] == before
      requires Enabled(before, e) && Snapshot() == Next(before, e)
      modifies `events, `states
      ensures Valid() && events == old(events) + [e]
    {
      LongerTrace(states, events, e, Snapshot());
      events, states := events + [e], states + [Snapshot()];
    }

    /** `submit`, from the moment the queue has room. */
    method Submit(id: TaskId, priority: int, createdAt: int, maxRetries: int, callback: Callback)
      requires Valid() && Enabled(Snapshot(), TaskQueueModel.Submit(id, priority, createdAt, maxRetries, callback))
      modifies this
      ensures Took(TaskQueueModel.Submit(id, priority, createdAt, maxRetries, callback))
      ensures id in queue && queue == old(queue) + multiset{id} && metrics.submitted == old(metrics).submitted + 1
      ensures tasks == old(tasks)[id := Task(priority, createdAt, PENDING, 0, maxRetries, callback, 0)]
      ensures running == old(running) && workers == old(workers)
    {
      ghost var before := Snapshot();
      var task := Task(priority, createdAt, PENDING, 0, maxRetries, callback, 0);
      queue := queue + multiset{id};
      tasks := tasks[id := task];
      metrics := metrics.(submitted := metrics.submitted + 1);
      Record(TaskQueueModel.Submit(id, priority, createdAt, maxRetries, callback), before);
    }

    method Cancel(id: TaskId) returns (answer: bool)
      requires Valid()
      modifies this
      ensures Took(TaskQueueModel.Cancel(id))
      ensures answer <==> id in old(tasks) && (old(tasks)[id].status == PENDING || old(tasks)[id].status == RUNNING)
      ensures answer ==> metrics.cancelled == old(metrics).cancelled + 1
      ensures answer && old(tasks)[id].status == PENDING ==> tasks == old(tasks)[id := old(tasks)[id].(status := CANCELLED)]
      ensures answer && old(tasks)[id].status == RUNNING ==> tasks == old(tasks)
      ensures !answer ==> Snapshot() == old(Snapshot())
    {
      ghost var before := Snapshot();
      RunningAreTasks();
      answer := Withdraw(id);
      Record(TaskQueueModel.Cancel(id), before);
    }

    method Withdraw(id: TaskId) returns (answer: bool)
      requires id in tasks && tasks[id].status == RUNNING ==> id in running
      modifies `tasks, `metrics
      ensures Snapshot() == CancelStep(old(Snapshot()), id)
      ensures answer <==> id in old(tasks) && (old(tasks)[id].status == PENDING || old(tasks)[id].status == RUNNING)
      ensures answer ==> metrics.cancelled == old(metrics).cancelled + 1
      ensures !answer ==> Snapshot() == old(Snapshot())
    {
      if id !in tasks {
        return false;
      }
      if tasks[id].status == PENDING {
        tasks := tasks[id := tasks[id].(status := CANCELLED)];
        metrics := metrics.(cancelled := metrics.cancelled + 1);
        return true;
      }
      if tasks[id].status == RUNNING && id in running {
        metrics := metrics.(cancelled := metrics.cancelled + 1);
        return true;
      }
      return false;
    }

    method Start(spawned: set<WorkerId>)
      requires Valid() && Enabled(Snapshot(), TaskQueueModel.Start(spawned))
      modifies this
      ensures Took(TaskQueueModel.Start(spawned))
      ensures old(pool) != {} ==> Snapshot() == old(Snapshot())
      ensures old(pool) == {} ==> pool == spawned && !shutdown && queue == old(queue) && tasks == old(tasks)
      ensures old(pool) == {} ==> forall w :: w in spawned ==> w in workers && workers[w] == Worker(Idle, false)
    {
      ghost var before := Snapshot();
      if pool == {} {
        shutdown := false;
        workers := workers + map w | w in spawned :: Worker(Idle, false);
        pool := spawned;
      }
      Record(TaskQueueModel.Start(spawned), before);
    }

    /** `stop`, up to its `await`: every worker is cancelled, then every running task is cancelled, marked and counted. */
    method Stop()
      requires Valid()
      modifies this
      ensures Took(TaskQueueModel.Stop)
      ensures old(pool) == {} ==> Snapshot() == old(Snapshot())
      ensures old(pool) != {} ==> shutdown && metrics.cancelled == old(metrics).cancelled + |running|
      ensures old(pool) != {} ==> forall w :: w in workers && w in pool && workers[w].pc != Ended ==> workers[w].cancelRequested
      ensures forall w :: w in workers && (w !in pool || workers[w].pc == Ended) ==> w in old(workers) && workers[w] == old(workers)[w]
      ensures old(pool) != {} ==> forall t :: t in tasks ==>
                t in old(tasks) && tasks[t] == if t in running then old(tasks)[t].(status := CANCELLED) else old(tasks)[t]
    {
      ghost var before := Snapshot();
      if pool != {} {
        RunningAreTasks();
        shutdown := true;
        CancelWorkers();
        MarkRunning();
        stops := stops + [StopCall(pool, false)];
      }
      Record(TaskQueueModel.Stop, before);
    }

    method CancelWorkers()
      modifies `workers
      ensures workers == RequestCancel(old(workers), pool)
    {
      var left := pool;
      while left != {}
        invariant left <= pool
        invariant workers == RequestCancel(old(workers), pool - left)
        decreases |left|
      {
        var w :| w in left;
        if w in workers && workers[w].pc != Ended {
          workers := workers[w := workers[w].(cancelRequested := true)];
        }
        left := left - {w};
      }
      assert pool - {} == pool;
    }

    method MarkRunning()
      requires running <= tasks.Keys
      modifies `tasks, `metrics
      ensures tasks == MarkCancelled(old(tasks), running)
      ensures metrics == old(metrics).(cancelled := old(metrics).cancelled + |running|)
    {
      var left := running;
      while left != {}
        invariant left <= running
        invariant tasks == MarkCancelled(old(tasks), running - left)
        invariant metrics == old(metrics).(cancelled := old(metrics).cancelled + |running| - |left|)
        decreases |left|
      {
        var t :| t in left;
        if t in tasks {
          tasks := tasks[t := tasks[t].(status := CANCELLED)];
        }
        metrics := metrics.(cancelled := metrics.cancelled + 1);
        left := left - {t};
      }
      assert running - {} == running;
    }

    /** A worker gets the first task of the queue and begins it, or skips it if it was cancelled. */
    method Pop(w: WorkerId, id: TaskId)
      requires Valid() && Enabled(Snapshot(), TaskQueueModel.Pop(w, id))
      modifies this
      ensures Took(TaskQueueModel.Pop(w, id))
      ensures forall t :: t in old(queue) && t in old(tasks) && t != id ==>
                old(tasks)[id].priority < old(tasks)[t].priority ||
                (old(tasks)[id].priority == old(tasks)[t].priority && old(tasks)[id].createdAt < old(tasks)[t].createdAt)
      ensures queue == old(queue) - multiset{id}
      ensures old(tasks)[id].status == CANCELLED ==>
                workers[w].pc == (if shutdown then Ended else Idle) && tasks == old(tasks) && running == old(running)
      ensures old(tasks)[id].status != CANCELLED ==>
                workers[w].pc == Running(id) && id in running && tasks[id].status == RUNNING &&
                tasks[id].starts == old(tasks)[id].starts + 1
    {
      ghost var before := Snapshot();
      forall t | t in queue && t in tasks && t != id
        ensures tasks[id].priority < tasks[t].priority ||
                (tasks[id].priority == tasks[t].priority && tasks[id].createdAt < tasks[t].createdAt)
      {
        PopTakesLowest(before, w, id, t);
      }
      if tasks[id].status == CANCELLED {
        Skip(w, id);
      } else {
        Begin(w, id);
      }
      Record(TaskQueueModel.Pop(w, id), before);
    }

    /** The wait for a task runs out; the loop condition decides. */
    method Poll(w: WorkerId)
      requires Valid() && Enabled(Snapshot(), TaskQueueModel.Poll(w))
      modifies this
      ensures Took(TaskQueueModel.Poll(w))
      ensures workers[w].pc == if shutdown then Ended else Idle
    {
      ghost var before := Snapshot();
      workers := workers[w := Worker(if shutdown then Ended else Idle, false)];
      Record(TaskQueueModel.Poll(w), before);
    }

    method Skip(w: WorkerId, id: TaskId)
      requires id in tasks && tasks[id].status == CANCELLED
      modifies `queue, `released, `workers
      ensures Snapshot() == PopStep(old(Snapshot()), w, id)
    {
      queue := queue - multiset{id};
      released := released + multiset{id};
      workers := workers[w := Worker(if shutdown then Ended else Idle, false)];
    }

    method Begin(w: WorkerId, id: TaskId)
      requires id in tasks && tasks[id].status != CANCELLED
      modifies `queue, `tasks, `running, `workers
      ensures Snapshot() == PopStep(old(Snapshot()), w, id)
    {
      BeginShape(Snapshot(), w, id);
      queue := queue - multiset{id};
      tasks := tasks[id := tasks[id].(status := RUNNING, starts := tasks[id].starts + 1)];
      running := running + {id};
      workers := workers[w := Worker(Running(id), false)];
    }

    /** The `finally` block of `_execute_task`; deleting a missing running entry would be a KeyError. */
    method LetGo(w: WorkerId, id: TaskId, ends: bool)
      requires id in tasks && id in running
      modifies `running, `tasks, `workers, `reports
      ensures Snapshot() == TaskQueueModel.LetGo(old(Snapshot()), w, id, ends)
    {
      running := running - {id};
      var callback := tasks[id].callback;
      tasks := tasks[id := tasks[id].(callback := NoCallback)];
      if callback != NoCallback {
        reports := reports + [CallbackReport(id, tasks[id].status == COMPLETED, tasks[id].retryCount)];
      }
      var pc := if callback == AsyncCallback then InCallback(ends)
                else if ends || shutdown then Ended else Idle;
      workers := workers[w := Worker(pc, false)];
    }

    /** The task body has ended and the worker resumes after `await task_future`. */
    method Finish(w: WorkerId, outcome: Outcome)
      requires Valid() && Enabled(Snapshot(), TaskQueueModel.Finish(w, outcome))
      modifies this
      ensures Took(TaskQueueModel.Finish(w, outcome))
    {
      ghost var before := Snapshot();
      HeldIsRunning(w);
      var id := workers[w].pc.task;
      match outcome {
        case Returned => Conclude(w, id, COMPLETED);
        case WasCancelled => Conclude(w, id, CANCELLED);
        case Raised =>
          if tasks[id].retryCount < tasks[id].maxRetries {
            BackOff(w, id);
          } else {
            Conclude(w, id, FAILED);
          }
      }
      Record(TaskQueueModel.Finish(w, outcome), before);
    }

    method BackOff(w: WorkerId, id: TaskId)
      requires id in tasks
      modifies `tasks, `metrics, `workers
      ensures Snapshot() == RetryLater(old(Snapshot()), w, id)
    {
      var retries := tasks[id].retryCount + 1;
      tasks := tasks[id := tasks[id].(retryCount := retries, status := PENDING)];
      metrics := metrics.(retries := metrics.retries + 1);
      workers := workers[w := Worker(Backoff(id, BackoffDelay(retries)), false)];
    }

    method Conclude(w: WorkerId, id: TaskId, status: Status)
      requires id in tasks && id in running
      modifies `tasks, `metrics, `released, `running, `workers, `reports
      ensures Snapshot() == Settle(old(Snapshot()), w, id, status)
    {
      tasks := tasks[id := tasks[id].(status := status)];
      Count(status);
      released := released + multiset{id};
      LetGo(w, id, status == CANCELLED);
    }

    method Count(status: Status)
      modifies `metrics
      ensures metrics == Counted(old(metrics), status)
    {
      match status {
        case COMPLETED => metrics := metrics.(completed := metrics.completed + 1);
        case FAILED => metrics := metrics.(failed := metrics.failed + 1);
        case CANCELLED => metrics := metrics.(cancelled := metrics.cancelled + 1);
        case _ =>
      }
    }

    /** The backoff is over and the queue has room. */
    method Requeue(w: WorkerId)
      requires Valid() && Enabled(Snapshot(), TaskQueueModel.Requeue(w))
      modifies this
      ensures Took(TaskQueueModel.Requeue(w))
      ensures var id := old(workers)[w].pc.task;
              queue == old(queue) + multiset{id} && id !in running && id in tasks && tasks[id].status == old(tasks)[id].status
      ensures !workers[w].pc.InCallback? ==> workers[w].pc == if shutdown then Ended else Idle
    {
      ghost var before := Snapshot();
      HeldIsRunning(w);
      var id := workers[w].pc.task;
      queue := queue + multiset{id};
      LetGo(w, id, false);
      Record(TaskQueueModel.Requeue(w), before);
    }

    /** A CancelledError arrives at the worker's `await`. */
    method Deliver(w: WorkerId)
      requires Valid() && Enabled(Snapshot(), TaskQueueModel.Deliver(w))
      modifies this
      ensures Took(TaskQueueModel.Deliver(w))
      ensures queue == old(queue) && (workers[w].pc == Ended || workers[w].pc == InCallback(true))
      ensures old(workers)[w].pc.Backoff? ==> old(workers)[w].pc.task !in running
    {
      ghost var before := Snapshot();
      if workers[w].pc.Backoff? {
        HeldIsRunning(w);
        var id := workers[w].pc.task;
        released := released + multiset{id};
        LetGo(w, id, true);
      } else {
        workers := workers[w := Worker(Ended, false)];
      }
      Record(TaskQueueModel.Deliver(w), before);
    }

    /** An asynchronous callback has returned. */
    method CallbackDone(w: WorkerId)
      requires Valid() && Enabled(Snapshot(), TaskQueueModel.CallbackDone(w))
      modifies this
      ensures Took(TaskQueueModel.CallbackDone(w))
      ensures workers[w].pc == if shutdown || old(workers)[w].pc.ends then Ended else Idle
    {
      ghost var before := Snapshot();
      workers := workers[w := Worker(if workers[w].pc.ends || shutdown then Ended else Idle, false)];
      Record(TaskQueueModel.CallbackDone(w), before);
    }

    /** The wait in `stop` times out, which cancels the workers it waits for once more. */
    method StopTimeout(call: nat)
      requires Valid() && Enabled(Snapshot(), TaskQueueModel.StopTimeout(call))
      modifies this
      ensures Took(TaskQueueModel.StopTimeout(call))
      ensures forall w :: w in workers && w in old(stops)[call].captured && workers[w].pc != Ended ==> workers[w].cancelRequested
      ensures forall w :: w in workers && (w !in old(stops)[call].captured || workers[w].pc == Ended) ==>
                w in old(workers) && workers[w] == old(workers)[w]
      ensures tasks == old(tasks) && queue == old(queue) && pool == old(pool)
    {
      ghost var before := Snapshot();
      workers := RequestCancel(workers, stops[call].captured);
      stops := stops[call := stops[call].(timedOut := true)];
      Record(TaskQueueModel.StopTimeout(call), before);
    }

    /** `stop` returns: its workers have all ended. */
    method StopFinish(call: nat)
      requires Valid() && Enabled(Snapshot(), TaskQueueModel.StopFinish(call))
      modifies this
      ensures Took(TaskQueueModel.StopFinish(call))
      ensures forall w :: w in old(stops)[call].captured && w in workers ==> workers[w].pc == Ended
      ensures pool == {} && tasks == old(tasks) && queue == old(queue) && workers == old(workers)
    {
      ghost var before := Snapshot();
      pool := {};
      stops := stops[..call] + stops[call + 1..];
      Record(TaskQueueModel.StopFinish(call), before);
    }

    /** The counters are what the tasks themselves say, whatever calls were made. */
    method GetMetrics() returns (m: Metrics)
      requires Valid()
      ensures m.submitted == |tasks| && m.completed == CountIn(tasks, COMPLETED) && m.failed == CountIn(tasks, FAILED)
      ensures m.cancelled >= CountIn(tasks, CANCELLED)
    {
      IsRun();
      MetricsExact(maxsize, maxWorkers, events, Snapshot());
      CancelledAccounting(maxsize, maxWorkers, events, Snapshot());
      m := metrics;
    }
  }

  /** After any calls a submitted task is queued once, held by one worker, or let go of once. */
  lemma {:induction false} OnePlace(q: Queue, t: TaskId)
    requires q.Valid() && t in q.tasks
    ensures QueuedOnce(q.Snapshot(), t) || HeldByOne(q.Snapshot(), t) || ReleasedOnce(q.Snapshot(), t)
    ensures t in q.running <==> HeldByOne(q.Snapshot(), t)
  {
    q.IsRun();
    ExactlyOnePlace(q.maxsize, q.maxWorkers, q.events, q.Snapshot(), t);
  }

  lemma {:induction false} BeginShape(s: State, w: WorkerId, id: TaskId)
    requires id in s.tasks && s.tasks[id].status != CANCELLED
    ensures PopStep(s, w, id) ==
            s.(queue := s.queue - multiset{id}, running := s.running + {id},
               tasks := s.tasks[id := s.tasks[id].(status := RUNNING, starts := s.tasks[id].starts + 1)],
               workers := s.workers[w := Worker(Running(id), false)])
  {
  }

  /** A RUNNING task has a running entry, so the second test of `cancel` never fails. */
  lemma {:induction false} RunningStatusIsHeld(s: State, t: TaskId)
    requires Inv(s) && t in s.tasks && s.tasks[t].status == RUNNING
    ensures t in s.running
  {
    assert Placed(s, t) && Consistent(s, t);
  }
}
