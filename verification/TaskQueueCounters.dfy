/** The metrics of the queue against the tasks they count. */
module TaskQueueCounters {
  import opened TaskQueueModel
  import opened TaskQueuePlaces
  import opened TaskQueueLife
  import opened MapSum

  function InStatus(tasks: map<TaskId, Task>, status: Status): set<TaskId> {
    set t | t in tasks && tasks[t].status == status
  }

  function CountIn(tasks: map<TaskId, Task>, status: Status): nat {
    |InStatus(tasks, status)|
  }

  function RetryWeight(): Task -> real {
    (t: Task) => t.retryCount as real
  }

  /** Everything but `tasks_cancelled`. */
  ghost predicate Counters(s: State) {
    && s.metrics.submitted == |s.tasks|
    && s.metrics.completed == CountIn(s.tasks, COMPLETED)
    && s.metrics.failed == CountIn(s.tasks, FAILED)
    && s.metrics.retries as real == Sum(s.tasks, RetryWeight())
  }

  function Is(x: Task, status: Status): nat {
    if x.status == status then 1 else 0
  }

  lemma {:induction false} CountWith(tasks: map<TaskId, Task>, id: TaskId, status: Status)
    requires id in tasks && tasks[id].status == status
    ensures CountIn(tasks, status) == CountIn(tasks - {id}, status) + 1
  {
    assert InStatus(tasks, status) == InStatus(tasks - {id}, status) + {id};
    assert id !in InStatus(tasks - {id}, status);
  }

  lemma {:induction false} CountWithout(tasks: map<TaskId, Task>, id: TaskId, status: Status)
    requires id !in tasks || tasks[id].status != status
    ensures CountIn(tasks, status) == CountIn(tasks - {id}, status)
  {
    assert InStatus(tasks, status) == InStatus(tasks - {id}, status);
  }

  lemma {:induction false} CountSplit(tasks: map<TaskId, Task>, id: TaskId, status: Status)
    ensures CountIn(tasks, status) ==
            CountIn(tasks - {id}, status) + (if id in tasks then Is(tasks[id], status) else 0)
  {
    if id in tasks && tasks[id].status == status {
      CountWith(tasks, id, status);
    } else {
      CountWithout(tasks, id, status);
    }
  }

  lemma {:induction false} CountUpdate(tasks: map<TaskId, Task>, id: TaskId, x: Task, status: Status)
    ensures CountIn(tasks[id := x], status) ==
            CountIn(tasks, status) - (if id in tasks then Is(tasks[id], status) else 0) + Is(x, status)
  {
    CountSplit(tasks, id, status);
    CountSplit(tasks[id := x], id, status);
    assert tasks[id := x] - {id} == tasks - {id};
  }

  /** One task changes to `x`, and the metrics move by what `x` is and what the task was. */
  lemma {:induction false} CountersByUpdate(s: State, s': State, id: TaskId, x: Task)
    requires Counters(s) && id in s.tasks && s'.tasks == s.tasks[id := x]
    requires s'.metrics.submitted == s.metrics.submitted
    requires s'.metrics.completed == s.metrics.completed - Is(s.tasks[id], COMPLETED) + Is(x, COMPLETED)
    requires s'.metrics.failed == s.metrics.failed - Is(s.tasks[id], FAILED) + Is(x, FAILED)
    requires s'.metrics.retries == s.metrics.retries - s.tasks[id].retryCount + x.retryCount
    ensures Counters(s')
  {
    CountUpdate(s.tasks, id, x, COMPLETED);
    CountUpdate(s.tasks, id, x, FAILED);
    SumUpdate(s.tasks, RetryWeight(), id, x);
    assert s'.tasks.Keys == s.tasks.Keys;
    assert |s'.tasks| == |s'.tasks.Keys|;
    assert |s.tasks| == |s.tasks.Keys|;
  }

  lemma {:induction false} CountersBySubmit(s: State, e: Event)
    requires Counters(s) && e.Submit? && Enabled(s, e)
    ensures Counters(Next(s, e))
  {
    var s' := Next(s, e);
    var x := s'.tasks[e.id];
    assert s'.tasks == s.tasks[e.id := x];
    CountUpdate(s.tasks, e.id, x, COMPLETED);
    CountUpdate(s.tasks, e.id, x, FAILED);
    SumUpdate(s.tasks, RetryWeight(), e.id, x);
  }

  /** A held task is in no final status. */
  lemma {:induction false} HeldIsLive(s: State, w: WorkerId, t: TaskId)
    requires w in s.workers && Holds(s.workers[w], t) && t in s.tasks && Consistent(s, t)
    ensures s.tasks[t].status != COMPLETED && s.tasks[t].status != FAILED
  {
    assert HeldOk(s.workers[w].pc, s.tasks[t]);
  }

  lemma {:induction false} RunningIsLive(s: State, t: TaskId)
    requires t in s.running && t in s.tasks && Placed(s, t) && Consistent(s, t)
    ensures s.tasks[t].status != COMPLETED && s.tasks[t].status != FAILED
  {
    var w :| w in Holders(s, t);
    HeldIsLive(s, w, t);
  }

  lemma {:induction false} StopKeepsFinal(s: State, status: Status)
    requires s.pool != {} && (status == COMPLETED || status == FAILED)
    requires forall t :: t in s.running && t in s.tasks ==> s.tasks[t].status != status
    ensures CountIn(StopStep(s).tasks, status) == CountIn(s.tasks, status)
  {
    assert InStatus(StopStep(s).tasks, status) == InStatus(s.tasks, status);
  }

  lemma {:induction false} CountersByStop(s: State)
    requires Counters(s) && AllPlaced(s) && AllConsistent(s)
    ensures Counters(StopStep(s))
  {
    var s' := StopStep(s);
    if s.pool != {} {
      forall t | t in s.running && t in s.tasks
        ensures s.tasks[t].status != COMPLETED && s.tasks[t].status != FAILED
      {
        assert Placed(s, t);
        RunningIsLive(s, t);
      }
      assert s'.tasks.Keys == s.tasks.Keys;
      assert |s'.tasks| == |s'.tasks.Keys| == |s.tasks.Keys| == |s.tasks|;
      StopKeepsFinal(s, COMPLETED);
      StopKeepsFinal(s, FAILED);
      SumCongruent(s.tasks, s'.tasks, RetryWeight());
    }
  }

  lemma {:induction false} CountersBySettle(s: State, w: WorkerId, id: TaskId, status: Status)
    requires Counters(s) && w in s.workers && Holds(s.workers[w], id) && id in s.tasks && Consistent(s, id)
    requires status == COMPLETED || status == CANCELLED || status == FAILED
    ensures Counters(Settle(s, w, id, status))
  {
    HeldIsLive(s, w, id);
    var s' := Settle(s, w, id, status);
    assert s'.tasks == s.tasks[id := s'.tasks[id]];
    CountersByUpdate(s, s', id, s'.tasks[id]);
  }

  lemma {:induction false} CountersByFinish(s: State, w: WorkerId, outcome: Outcome)
    requires Counters(s) && Enabled(s, Finish(w, outcome)) && Consistent(s, s.workers[w].pc.task)
    ensures Counters(FinishStep(s, w, outcome))
  {
    var id := s.workers[w].pc.task;
    match outcome
    case Returned => CountersBySettle(s, w, id, COMPLETED);
    case WasCancelled => CountersBySettle(s, w, id, CANCELLED);
    case Raised =>
      if s.tasks[id].retryCount < s.tasks[id].maxRetries {
        HeldIsLive(s, w, id);
        CountersByUpdate(s, RetryLater(s, w, id), id, RetryLater(s, w, id).tasks[id]);
      } else {
        CountersBySettle(s, w, id, FAILED);
      }
  }

  lemma {:induction false} CountersByBackoffEnd(s: State, e: Event)
    requires Counters(s) && Enabled(s, e) && (e.Deliver? || e.Requeue?) && s.workers[e.w].pc.Backoff?
    ensures Counters(Next(s, e))
  {
    var id := s.workers[e.w].pc.task;
    CountersByUpdate(s, Next(s, e), id, Next(s, e).tasks[id]);
  }

  lemma {:induction false} CountersByPop(s: State, w: WorkerId, id: TaskId)
    requires Counters(s) && Takes(s, w, id) && Consistent(s, id)
    ensures Counters(PopStep(s, w, id))
  {
    CountersByUpdate(s, PopStep(s, w, id), id, PopStep(s, w, id).tasks[id]);
  }

  lemma {:induction false} CountersKept(s: State, e: Event)
    requires Counters(s) && AllPlaced(s) && AllConsistent(s) && Enabled(s, e)
    ensures Counters(Next(s, e))
  {
    match e
    case Submit(_, _, _, _, _) => CountersBySubmit(s, e);
    case Cancel(id) =>
      if CancelAnswer(s, id) && s.tasks[id].status == PENDING {
        CountersByUpdate(s, CancelStep(s, id), id, CancelStep(s, id).tasks[id]);
      }
    case Stop => CountersByStop(s);
    case Pop(w, id) => CountersByPop(s, w, id);
    case Finish(w, outcome) => CountersByFinish(s, w, outcome);
    case Deliver(w) => if s.workers[w].pc.Backoff? { CountersByBackoffEnd(s, e); }
    case Requeue(w) => CountersByBackoffEnd(s, e);
    case _ =>
  }

  // ----- tasks_cancelled -----

  /** The increments of `tasks_cancelled` in one step that no newly CANCELLED task stands for. */
  function Overcount(s: State, e: Event): nat {
    match e
    case Cancel(id) => if CancelAnswer(s, id) && s.tasks[id].status == RUNNING then 1 else 0
    case Stop => if s.pool == {} then 0 else |s.running * InStatus(s.tasks, CANCELLED)|
    case Finish(w, _) =>
      if w in s.workers && s.workers[w].pc.Running? && s.workers[w].pc.task in s.tasks &&
         s.tasks[s.workers[w].pc.task].status == CANCELLED then 1 else 0
    case _ => 0
  }

  /** `tasks_cancelled` exceeds the number of CANCELLED tasks by `over`. */
  predicate CancelExcess(s: State, over: nat) {
    s.metrics.cancelled == CountIn(s.tasks, CANCELLED) + over
  }

  lemma {:induction false} UnionCount(a: set<TaskId>, b: set<TaskId>)
    ensures |a + b| == |a| + |b| - |b * a|
  {
    assert a + b == a + (b - a);
    assert b == (b - a) + (b * a);
  }

  lemma {:induction false} ExcessByStop(s: State, over: nat)
    requires CancelExcess(s, over) && s.pool != {} && s.running <= s.tasks.Keys
    ensures CancelExcess(StopStep(s), over + Overcount(s, Stop))
  {
    var before := InStatus(s.tasks, CANCELLED);
    assert InStatus(StopStep(s).tasks, CANCELLED) == before + s.running;
    UnionCount(before, s.running);
  }

  lemma {:induction false} ExcessByUpdate(s: State, s': State, id: TaskId, over: nat, over': nat)
    requires CancelExcess(s, over) && id in s.tasks && id in s'.tasks && s'.tasks == s.tasks[id := s'.tasks[id]]
    requires s'.metrics.cancelled - s.metrics.cancelled ==
             Is(s'.tasks[id], CANCELLED) - Is(s.tasks[id], CANCELLED) + over' - over
    ensures CancelExcess(s', over')
  {
    CountUpdate(s.tasks, id, s'.tasks[id], CANCELLED);
  }

  lemma {:induction false} ExcessByFinish(s: State, w: WorkerId, outcome: Outcome, over: nat)
    requires CancelExcess(s, over) && Enabled(s, Finish(w, outcome)) && Consistent(s, s.workers[w].pc.task)
    ensures CancelExcess(FinishStep(s, w, outcome), over + Overcount(s, Finish(w, outcome)))
  {
    var id := s.workers[w].pc.task;
    var over' := over + Overcount(s, Finish(w, outcome));
    match outcome
    case Returned => ExcessByUpdate(s, Settle(s, w, id, COMPLETED), id, over, over');
    case WasCancelled => ExcessByUpdate(s, Settle(s, w, id, CANCELLED), id, over, over');
    case Raised =>
      if s.tasks[id].retryCount < s.tasks[id].maxRetries {
        ExcessByUpdate(s, RetryLater(s, w, id), id, over, over');
      } else {
        ExcessByUpdate(s, Settle(s, w, id, FAILED), id, over, over');
      }
  }

  lemma {:induction false} ExcessByPop(s: State, w: WorkerId, id: TaskId, over: nat)
    requires CancelExcess(s, over) && Takes(s, w, id) && Consistent(s, id)
    ensures CancelExcess(PopStep(s, w, id), over)
  {
    ExcessByUpdate(s, PopStep(s, w, id), id, over, over);
  }

  lemma {:induction false} ExcessByBackoffEnd(s: State, e: Event, over: nat)
    requires CancelExcess(s, over) && Enabled(s, e) && (e.Deliver? || e.Requeue?) && s.workers[e.w].pc.Backoff?
    ensures CancelExcess(Next(s, e), over)
  {
    ExcessByUpdate(s, Next(s, e), s.workers[e.w].pc.task, over, over);
  }

  lemma {:induction false} ExcessByClient(s: State, e: Event, over: nat)
    requires CancelExcess(s, over) && Enabled(s, e) && (e.Submit? || e.Cancel?)
    ensures CancelExcess(Next(s, e), over + Overcount(s, e))
  {
    if e.Submit? {
      CountUpdate(s.tasks, e.id, Next(s, e).tasks[e.id], CANCELLED);
    } else if CancelAnswer(s, e.id) {
      ExcessByUpdate(s, CancelStep(s, e.id), e.id, over, over + Overcount(s, e));
    }
  }

  lemma {:induction false} ExcessKept(s: State, e: Event, over: nat)
    requires CancelExcess(s, over) && AllPlaced(s) && AllConsistent(s) && Enabled(s, e)
    ensures CancelExcess(Next(s, e), over + Overcount(s, e))
  {
    match e
    case Submit(_, _, _, _, _) => ExcessByClient(s, e, over);
    case Cancel(_) => ExcessByClient(s, e, over);
    case Stop =>
      if s.pool != {} {
        forall t | t in s.running ensures t in s.tasks { assert Placed(s, t); }
        ExcessByStop(s, over);
      }
    case Pop(w, id) => ExcessByPop(s, w, id, over);
    case Finish(w, outcome) => ExcessByFinish(s, w, outcome, over);
    case Deliver(w) => if s.workers[w].pc.Backoff? { ExcessByBackoffEnd(s, e, over); }
    case Requeue(w) => ExcessByBackoffEnd(s, e, over);
    case _ =>
  }
}
