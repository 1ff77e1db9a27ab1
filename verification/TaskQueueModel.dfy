/**
 The asyncio task queue as a transition system. One event is one stretch of code between two `await`s,
 so a sequence of events is one interleaving of clients (`submit`, `cancel`, `start`, `stop`) and workers.
 What the event loop or a task body decides (which worker runs, how a task body ends) is carried by the event.
 */
module TaskQueueModel {

  type TaskId = string
  type WorkerId = nat

  datatype Status = PENDING | RUNNING | COMPLETED | FAILED | CANCELLED

  datatype Callback = NoCallback | SyncCallback | AsyncCallback

  /** `callback` is the `_callback` entry of the payload; `starts` is a history variable: how often a worker began the task. */
  datatype Task = Task(
    priority: int, createdAt: int, status: Status, retryCount: nat, maxRetries: int,
    callback: Callback, starts: nat)

  /** Where a worker coroutine is suspended. */
  datatype Pc =
    | Idle                            // inside `wait_for(queue.get(), 1.0)`
    | Running(task: TaskId)           // inside `await task_future`
    | Backoff(task: TaskId, delay: nat) // inside `sleep(delay)` or the blocked `put` after it
    | InCallback(ends: bool)          // inside an async callback; `ends` says a CancelledError is pending
    | Ended

  /** `cancelRequested`: the loop will deliver a CancelledError at the worker's present `await`. */
  datatype Worker = Worker(pc: Pc, cancelRequested: bool)

  datatype Metrics = Metrics(submitted: nat, completed: nat, failed: nat, cancelled: nat, retries: nat)

  datatype CallbackReport = CallbackReport(task: TaskId, success: bool, retriesUsed: nat)

  /** One `stop()` call that is waiting for the workers it captured. */
  datatype StopCall = StopCall(captured: set<WorkerId>, timedOut: bool)

  /** How the future of a task body ends, as seen by the `await` in `_execute_task`. */
  datatype Outcome = Returned | Raised | WasCancelled

  /**
   `queue` is a multiset, so that "queued once" is something to prove. `released` and `reports` are history:
   tasks a worker let go of without re-queueing, and the callbacks fired so far.
   */
  datatype State = State(
    maxsize: int, maxWorkers: nat,
    tasks: map<TaskId, Task>, queue: multiset<TaskId>, running: set<TaskId>,
    workers: map<WorkerId, Worker>, pool: set<WorkerId>, shutdown: bool, stops: seq<StopCall>,
    metrics: Metrics, released: multiset<TaskId>, reports: seq<CallbackReport>)

  datatype Event =
    | Submit(id: TaskId, priority: int, createdAt: int, maxRetries: int, callback: Callback)
    | Cancel(id: TaskId)
    | Start(spawned: set<WorkerId>)
    | Stop
    | StopTimeout(call: nat)
    | StopFinish(call: nat)
    | Poll(w: WorkerId)
    | Pop(w: WorkerId, id: TaskId)
    | Deliver(w: WorkerId)
    | Finish(w: WorkerId, outcome: Outcome)
    | Requeue(w: WorkerId)
    | CallbackDone(w: WorkerId)

  function Init(maxsize: int, maxWorkers: nat): State {
    State(maxsize, maxWorkers, map[], multiset{}, {}, map[], {}, false, [],
          Metrics(0, 0, 0, 0, 0), multiset{}, [])
  }

  // ----- what the steps are made of -----

  predicate Full(s: State) {
    0 < s.maxsize <= |s.queue|
  }

  predicate Before(a: Task, b: Task) {
    a.priority < b.priority || (a.priority == b.priority && a.createdAt < b.createdAt)
  }

  predicate IsFirst(s: State, id: TaskId)
  {
    id in s.queue && id in s.tasks &&
    forall t <- s.queue | t in s.tasks && t != id :: Before(s.tasks[id], s.tasks[t])
  }

  /** An idle worker may take a queued task. */
  predicate Takes(s: State, w: WorkerId, id: TaskId) {
    w in s.workers && s.workers[w] == Worker(Idle, false) && id in s.queue && id in s.tasks
  }

  /** The loop condition `while not self._shutdown`. */
  function LoopTop(s: State): Pc {
    if s.shutdown then Ended else Idle
  }

  /** `min(2 ** (retry_count - 1), 60)`. */
  function BackoffDelay(retryCount: nat): nat
    requires retryCount >= 1
  {
    if retryCount >= 7 then 60 else Pow2(retryCount - 1)
  }

  function Pow2(n: nat): nat {
    if n == 0 then 1 else 2 * Pow2(n - 1)
  }

  function WithTask(s: State, id: TaskId, t: Task): State {
    s.(tasks := s.tasks[id := t])
  }

  function WithPc(s: State, w: WorkerId, pc: Pc): State {
    s.(workers := s.workers[w := Worker(pc, false)])
  }

  /** Delivering `cancel()` to the live workers of `ws`; a finished worker ignores it. */
  function RequestCancel(workers: map<WorkerId, Worker>, ws: set<WorkerId>): map<WorkerId, Worker> {
    map w | w in workers ::
      if w in ws && workers[w].pc != Ended then workers[w].(cancelRequested := true) else workers[w]
  }

  /** The `finally` block of `_execute_task`: the running entry goes, and the callback is popped and fired. */
  function LetGo(s: State, w: WorkerId, id: TaskId, ends: bool): State
    requires id in s.tasks
  {
    var t := s.tasks[id];
    var after := if t.callback == AsyncCallback then InCallback(ends)
                 else if ends then Ended else LoopTop(s);
    var reports := if t.callback == NoCallback then s.reports
                   else s.reports + [CallbackReport(id, t.status == COMPLETED, t.retryCount)];
    WithPc(s, w, after).(
      running := s.running - {id},
      tasks := s.tasks[id := t.(callback := NoCallback)],
      reports := reports)
  }

  function Drop(s: State, id: TaskId): State {
    s.(released := s.released + multiset{id})
  }

  // ----- the steps -----

  predicate Enabled(s: State, e: Event) {
    match e
    case Submit(id, priority, createdAt, _, _) =>
      id !in s.tasks && !Full(s) &&
      forall t <- s.tasks :: s.tasks[t].priority != priority || s.tasks[t].createdAt != createdAt
    case Cancel(_) => true
    case Start(spawned) => |spawned| == s.maxWorkers && spawned !! s.workers.Keys
    case Stop => true
    case StopTimeout(i) => i < |s.stops| && !s.stops[i].timedOut
    case StopFinish(i) =>
      i < |s.stops| && forall w <- s.stops[i].captured | w in s.workers :: s.workers[w].pc == Ended
    case Poll(w) => w in s.workers && s.workers[w] == Worker(Idle, false)
    case Pop(w, id) => Takes(s, w, id) && IsFirst(s, id)
    case Deliver(w) =>
      w in s.workers && s.workers[w].cancelRequested &&
      match s.workers[w].pc {
        case Idle => true
        case Backoff(id, _) => id in s.tasks
        case InCallback(_) => true
        case _ => false
      }
    case Finish(w, _) => w in s.workers && s.workers[w].pc.Running? && s.workers[w].pc.task in s.tasks
    case Requeue(w) =>
      w in s.workers && s.workers[w].pc.Backoff? && !s.workers[w].cancelRequested &&
      s.workers[w].pc.task in s.tasks && !Full(s)
    case CallbackDone(w) => w in s.workers && s.workers[w].pc.InCallback?
  }

  function SubmitStep(s: State, id: TaskId, priority: int, createdAt: int, maxRetries: int, callback: Callback): State {
    s.(queue := s.queue + multiset{id},
       tasks := s.tasks[id := Task(priority, createdAt, PENDING, 0, maxRetries, callback, 0)],
       metrics := s.metrics.(submitted := s.metrics.submitted + 1))
  }

  /** The answer of `cancel`. */
  predicate CancelAnswer(s: State, id: TaskId) {
    id in s.tasks &&
    (s.tasks[id].status == PENDING || (s.tasks[id].status == RUNNING && id in s.running))
  }

  function CancelStep(s: State, id: TaskId): State {
    if !CancelAnswer(s, id) then s
    else
      var counted := s.(metrics := s.metrics.(cancelled := s.metrics.cancelled + 1));
      if s.tasks[id].status == PENDING then WithTask(counted, id, s.tasks[id].(status := CANCELLED))
      else counted
  }

  function StartStep(s: State, spawned: set<WorkerId>): State {
    if s.pool != {} then s
    else s.(shutdown := false, pool := spawned,
            workers := s.workers + map w | w in spawned :: Worker(Idle, false))
  }

  function MarkCancelled(tasks: map<TaskId, Task>, ids: set<TaskId>): map<TaskId, Task> {
    map t | t in tasks :: if t in ids then tasks[t].(status := CANCELLED) else tasks[t]
  }

  function StopStep(s: State): State {
    if s.pool == {} then s
    else s.(shutdown := true,
            workers := RequestCancel(s.workers, s.pool),
            tasks := MarkCancelled(s.tasks, s.running),
            metrics := s.metrics.(cancelled := s.metrics.cancelled + |s.running|),
            stops := s.stops + [StopCall(s.pool, false)])
  }

  function PopStep(s: State, w: WorkerId, id: TaskId): State
    requires id in s.tasks
  {
    var t := s.tasks[id];
    var taken := s.(queue := s.queue - multiset{id});
    if t.status == CANCELLED then
      WithPc(Drop(taken, id), w, LoopTop(s))
    else
      WithTask(WithPc(taken, w, Running(id)), id, t.(status := RUNNING, starts := t.starts + 1))
        .(running := s.running + {id})
  }

  function DeliverStep(s: State, w: WorkerId): State
    requires Enabled(s, Deliver(w))
  {
    match s.workers[w].pc
    case Backoff(id, _) => LetGo(Drop(s, id), w, id, true)
    case _ => WithPc(s, w, Ended)
  }

  function Counted(m: Metrics, status: Status): Metrics {
    match status
    case COMPLETED => m.(completed := m.completed + 1)
    case FAILED => m.(failed := m.failed + 1)
    case CANCELLED => m.(cancelled := m.cancelled + 1)
    case _ => m
  }

  /** The attempt is the last one: the task gets its final status, is counted and let go. */
  function Settle(s: State, w: WorkerId, id: TaskId, status: Status): State
    requires id in s.tasks
  {
    LetGo(Drop(WithTask(s, id, s.tasks[id].(status := status)), id)
            .(metrics := Counted(s.metrics, status)), w, id, status == CANCELLED)
  }

  function RetryLater(s: State, w: WorkerId, id: TaskId): State
    requires id in s.tasks
  {
    var t := s.tasks[id];
    WithTask(WithPc(s, w, Backoff(id, BackoffDelay(t.retryCount + 1))), id,
             t.(status := PENDING, retryCount := t.retryCount + 1))
      .(metrics := s.metrics.(retries := s.metrics.retries + 1))
  }

  function FinishStep(s: State, w: WorkerId, outcome: Outcome): State
    requires Enabled(s, Finish(w, outcome))
  {
    var id := s.workers[w].pc.task;
    match outcome
    case Returned => Settle(s, w, id, COMPLETED)
    case WasCancelled => Settle(s, w, id, CANCELLED)
    case Raised =>
      if s.tasks[id].retryCount < s.tasks[id].maxRetries then RetryLater(s, w, id)
      else Settle(s, w, id, FAILED)
  }

  function RequeueStep(s: State, w: WorkerId): State
    requires Enabled(s, Requeue(w))
  {
    var id := s.workers[w].pc.task;
    LetGo(s.(queue := s.queue + multiset{id}), w, id, false)
  }

  function Next(s: State, e: Event): State
    requires Enabled(s, e)
  {
    match e
    case Submit(id, priority, createdAt, maxRetries, callback) =>
      SubmitStep(s, id, priority, createdAt, maxRetries, callback)
    case Cancel(id) => CancelStep(s, id)
    case Start(spawned) => StartStep(s, spawned)
    case Stop => StopStep(s)
    case StopTimeout(i) =>
      s.(workers := RequestCancel(s.workers, s.stops[i].captured),
         stops := s.stops[i := s.stops[i].(timedOut := true)])
    case StopFinish(i) => s.(pool := {}, stops := s.stops[..i] + s.stops[i + 1..])
    case Poll(w) => WithPc(s, w, LoopTop(s))
    case Pop(w, id) => PopStep(s, w, id)
    case Deliver(w) => DeliverStep(s, w)
    case Finish(w, outcome) => FinishStep(s, w, outcome)
    case Requeue(w) => RequeueStep(s, w)
    case CallbackDone(w) => WithPc(s, w, if s.workers[w].pc.ends then Ended else LoopTop(s))
  }

  /** `es` is an interleaving that takes `s` to `s'`. */
  ghost predicate Run(s: State, es: seq<Event>, s': State)
    decreases |es|
  {
    if es == [] then s == s'
    else Enabled(s, es[0]) && Run(Next(s, es[0]), es[1..], s')
  }

  lemma {:induction false} RunOne(s: State, e: Event, es: seq<Event>, s': State)
    requires Enabled(s, e) && Run(Next(s, e), es, s')
    ensures Run(s, [e] + es, s')
  {
    assert ([e] + es)[1..] == es;
  }

  lemma {:induction false} RunThen(s: State, es: seq<Event>, mid: State, e: Event)
    requires Run(s, es, mid) && Enabled(mid, e)
    ensures Run(s, es + [e], Next(mid, e))
    decreases |es|
  {
    if es == [] {
      assert Run(Next(mid, e), [], Next(mid, e));
      assert ([e])[1..] == [];
      assert es + [e] == [e];
    } else {
      RunThen(Next(s, es[0]), es[1..], mid, e);
      assert (es + [e])[1..] == es[1..] + [e];
    }
  }

  ghost predicate StepAt(states: seq<State>, events: seq<Event>, i: int) {
    0 <= i < |events| && i + 1 < |states| ==> Enabled(states[i], events[i]) && states[i + 1] == Next(states[i], events[i])
  }

  /** The events lead from each state to the next. */
  ghost predicate IsTrace(states: seq<State>, events: seq<Event>) {
    |states| == |events| + 1 && forall i {:trigger StepAt(states, events, i)} :: StepAt(states, events, i)
  }

  lemma {:induction false} LongerTrace(states: seq<State>, events: seq<Event>, e: Event, s: State)
    requires IsTrace(states, events) && Enabled(states[|events|], e) && s == Next(states[|events|], e)
    ensures IsTrace(states + [s], events + [e])
  {
    forall i ensures StepAt(states + [s], events + [e], i) {
      assert StepAt(states, events, i);
    }
  }

  lemma {:induction false} TraceIsRun(states: seq<State>, events: seq<Event>)
    requires IsTrace(states, events)
    ensures Run(states[0], events, states[|events|])
    decreases |events|
  {
    if events != [] {
      var n := |events| - 1;
      assert StepAt(states, events, n);
      var shorter, fewer := states[..n + 1], events[..n];
      forall i ensures StepAt(shorter, fewer, i) {
        assert StepAt(states, events, i);
      }
      TraceIsRun(shorter, fewer);
      RunThen(states[0], events[..n], states[n], events[n]);
      assert events == events[..n] + [events[n]];
    }
  }
}
