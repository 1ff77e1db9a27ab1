/** When no worker of the queue can move any more, and how the queue gets there. */
module TaskQueueStalls {
  import opened TaskQueueModel
  import opened TaskQueuePlaces
  import opened TaskQueueLife
  import opened TaskQueueRuns
  import opened Lists

  // ----- no worker can move -----

  /** A worker that has ended, or that waits to re-queue its task into a full queue. */
  predicate IsStuck(s: State, w: WorkerId)
    requires w in s.workers
  {
    s.workers[w].pc == Ended ||
    (s.workers[w].pc.Backoff? && !s.workers[w].cancelRequested && Full(s))
  }

  /** The pool is non-empty, so `start()` does nothing; no `stop()` is under way; and every worker is stuck. */
  ghost predicate Halted(s: State) {
    && s.pool != {} && s.stops == []
    && forall w :: w in s.workers ==> IsStuck(s, w)
  }

  predicate IsWorkerStep(e: Event) {
    e.Poll? || e.Pop? || e.Deliver? || e.Finish? || e.Requeue? || e.CallbackDone?
  }

  lemma {:induction false} UnstuckMoves(s: State, w: WorkerId) returns (e: Event)
    requires Inv(s) && w in s.workers && !IsStuck(s, w)
    ensures IsWorkerStep(e) && Enabled(s, e)
  {
    var pc, asked := s.workers[w].pc, s.workers[w].cancelRequested;
    if pc.Running? || pc.Backoff? {
      assert Placed(s, pc.task);
      SomeHolder(s, w, pc.task);
    }
    match pc
    case Idle => e := if asked then Deliver(w) else Poll(w);
    case Running(_) => e := Finish(w, Returned);
    case Backoff(_, _) => e := if asked then Deliver(w) else Requeue(w);
    case InCallback(_) => e := CallbackDone(w);
  }

  lemma {:induction false} MoverIsUnstuck(s: State, e: Event)
    requires IsWorkerStep(e) && Enabled(s, e)
    ensures e.w in s.workers && !IsStuck(s, e.w)
  {
  }

  /** With a pool and no `stop()` under way, the queue is halted if and only if no worker has a step it can make. */
  lemma {:induction false} HaltedIffNoneMoves(s: State)
    requires Inv(s) && s.pool != {} && s.stops == []
    ensures Halted(s) <==> forall e :: IsWorkerStep(e) ==> !Enabled(s, e)
  {
    if Halted(s) {
      forall e | IsWorkerStep(e) ensures !Enabled(s, e) {
        if Enabled(s, e) {
          MoverIsUnstuck(s, e);
        }
      }
    } else {
      var w :| w in s.workers && !IsStuck(s, w);
      var e := UnstuckMoves(s, w);
    }
  }

  // ----- how many workers are left -----

  /** A worker that has ended, or will once its callback is over. */
  predicate Gone(worker: Worker) {
    worker.pc == Ended || worker.pc == InCallback(true)
  }

  function GoneWorkers(s: State): set<WorkerId> {
    set w | w in s.workers && Gone(s.workers[w])
  }

  function BackoffWorkers(s: State): set<WorkerId> {
    set w | w in s.workers && s.workers[w].pc.Backoff?
  }

  /** How many task bodies ended by being cancelled. */
  function CancelledBodies(es: seq<Event>): nat {
    if es == [] then 0
    else
      CancelledBodies(es[1..]) + if EndsCancelled(es[0]) then 1 else 0
  }

  predicate EndsCancelled(e: Event) {
    e.Finish? && e.outcome == WasCancelled
  }

  /** As long as `stop()` is not called, nobody asks a worker to cancel. */
  ghost predicate Unstopped(s: State) {
    && !s.shutdown && s.stops == [] && s.pool == s.workers.Keys
    && (s.pool != {} ==> |s.pool| == s.maxWorkers)
    && forall w :: w in s.workers ==> !s.workers[w].cancelRequested
  }

  /** A worker's step moves that worker alone. */
  ghost predicate MovesOne(s: State, s': State, w: WorkerId) {
    && w in s.workers && w in s'.workers && s'.workers == s.workers[w := s'.workers[w]]
    && !s'.workers[w].cancelRequested
    && s'.pool == s.pool && s'.shutdown == s.shutdown && s'.stops == s.stops
    && s'.maxsize == s.maxsize && s'.maxWorkers == s.maxWorkers
  }

  lemma {:induction false} SettleMovesOne(s: State, w: WorkerId, id: TaskId, status: Status)
    requires w in s.workers && id in s.tasks
    ensures MovesOne(s, Settle(s, w, id, status), w)
    ensures !s.shutdown ==> (Gone(Settle(s, w, id, status).workers[w]) <==> status == CANCELLED)
  {
  }

  lemma {:induction false} FinishMovesOne(s: State, w: WorkerId, outcome: Outcome)
    requires Enabled(s, Finish(w, outcome))
    ensures MovesOne(s, FinishStep(s, w, outcome), w)
    ensures !s.shutdown ==> (Gone(FinishStep(s, w, outcome).workers[w]) <==> outcome == WasCancelled)
  {
    var id := s.workers[w].pc.task;
    match outcome
    case Returned => SettleMovesOne(s, w, id, COMPLETED);
    case WasCancelled => SettleMovesOne(s, w, id, CANCELLED);
    case Raised => SettleMovesOne(s, w, id, FAILED);
  }

  lemma {:induction false} BackoffEndMovesOne(s: State, e: Event)
    requires Enabled(s, e) && (e.Deliver? || e.Requeue?)
    ensures MovesOne(s, Next(s, e), e.w)
  {
  }

  lemma {:induction false} PopMovesOne(s: State, w: WorkerId, id: TaskId)
    requires Takes(s, w, id)
    ensures MovesOne(s, PopStep(s, w, id), w)
  {
  }

  lemma {:induction false} StepMovesOne(s: State, e: Event)
    requires Enabled(s, e) && IsWorkerStep(e)
    ensures MovesOne(s, Next(s, e), e.w)
  {
    match e
    case Finish(w, outcome) => FinishMovesOne(s, w, outcome);
    case Deliver(_) => BackoffEndMovesOne(s, e);
    case Requeue(_) => BackoffEndMovesOne(s, e);
    case Pop(w, id) => PopMovesOne(s, w, id);
    case _ =>
  }

  lemma {:induction false} GoneNow(s: State, e: Event)
    requires Unstopped(s) && Enabled(s, e) && IsWorkerStep(e)
    ensures e.w in s.workers && e.w in Next(s, e).workers
    ensures Gone(Next(s, e).workers[e.w]) <==> Gone(s.workers[e.w]) || EndsCancelled(e)
    ensures EndsCancelled(e) ==> !Gone(s.workers[e.w])
  {
    if e.Finish? {
      FinishMovesOne(s, e.w, e.outcome);
    }
  }

  lemma {:induction false} GoneByWorker(s: State, e: Event)
    requires Unstopped(s) && Enabled(s, e) && IsWorkerStep(e)
    ensures Unstopped(Next(s, e)) && GoneWorkers(Next(s, e)) == GoneWorkers(s) + if EndsCancelled(e) then {e.w} else {}
    ensures EndsCancelled(e) ==> e.w !in GoneWorkers(s)
    ensures Next(s, e).maxsize == s.maxsize && Next(s, e).maxWorkers == s.maxWorkers
  {
    StepMovesOne(s, e);
    GoneNow(s, e);
  }

  lemma {:induction false} GoneByStart(s: State, spawned: set<WorkerId>)
    requires Unstopped(s) && Enabled(s, Start(spawned)) && s.pool == {}
    ensures Unstopped(StartStep(s, spawned)) && GoneWorkers(StartStep(s, spawned)) == GoneWorkers(s) == {}
  {
    assert StartStep(s, spawned).workers.Keys == spawned;
  }

  lemma {:induction false} ClientLeavesWorkers(s: State, e: Event)
    requires Unstopped(s) && Enabled(s, e) && !IsWorkerStep(e) && e != Stop && (e.Start? ==> s.pool != {})
    ensures var s' := Next(s, e);
            && s'.workers == s.workers && s'.pool == s.pool && s'.shutdown == s.shutdown && s'.stops == s.stops
            && s'.maxsize == s.maxsize && s'.maxWorkers == s.maxWorkers
  {
  }

  lemma {:induction false} GoneByClient(s: State, e: Event)
    requires Unstopped(s) && Enabled(s, e) && !IsWorkerStep(e) && e != Stop
    ensures Unstopped(Next(s, e)) && GoneWorkers(Next(s, e)) == GoneWorkers(s)
    ensures Next(s, e).maxsize == s.maxsize && Next(s, e).maxWorkers == s.maxWorkers
  {
    if e.Start? && s.pool == {} {
      GoneByStart(s, e.spawned);
    } else {
      ClientLeavesWorkers(s, e);
    }
  }

  /** Every cancelled body takes one worker out of the pool for good. */
  lemma {:induction false} GoneAlong(s: State, es: seq<Event>, s': State)
    requires Unstopped(s) && Run(s, es, s') && Stop !in es
    ensures Unstopped(s') && s'.maxsize == s.maxsize && s'.maxWorkers == s.maxWorkers
    ensures |GoneWorkers(s')| == |GoneWorkers(s)| + CancelledBodies(es)
    decreases |es|
  {
    if es != [] {
      assert es[0] in es;
      assert forall e :: e in es[1..] ==> e in es;
      if IsWorkerStep(es[0]) {
        GoneByWorker(s, es[0]);
      } else {
        GoneByClient(s, es[0]);
      }
      GoneAlong(Next(s, es[0]), es[1..], s');
    }
  }

  lemma {:induction false} HaltedIffAllGone(s: State)
    requires Unstopped(s)
    ensures Halted(s) <==>
            s.pool != {} && |GoneWorkers(s)| + |BackoffWorkers(s)| == s.maxWorkers &&
            (forall w :: w in s.workers ==> !s.workers[w].pc.InCallback?) && (BackoffWorkers(s) != {} ==> Full(s))
  {
    var out := GoneWorkers(s) + BackoffWorkers(s);
    assert GoneWorkers(s) !! BackoffWorkers(s);
    SubsetCount(out, s.pool);
    if Halted(s) {
      forall w | w in s.pool ensures w in out && !s.workers[w].pc.InCallback? {
        assert IsStuck(s, w);
      }
      assert out == s.pool;
      if w :| w in BackoffWorkers(s) {
        assert IsStuck(s, w);
      }
    } else if s.pool != {} && |out| == s.maxWorkers {
      assert out == s.pool;
      var w :| w in s.workers && !IsStuck(s, w);
      assert w in out;
      if !s.workers[w].pc.InCallback? {
        assert s.workers[w].pc.Backoff? && !Full(s);
        assert w in BackoffWorkers(s);
      }
    }
  }

  /**
   The exact condition over all runs without a `stop()`: a started queue has halted if and only if the bodies that were
   cancelled and the retries waiting to be queued are as many as the workers, the queue being full if there are any of
   the latter. With an unbounded queue, fewer cancelled bodies than workers never halt it.
   */
  lemma {:induction false} HaltsExactly(maxsize: int, maxWorkers: nat, es: seq<Event>, s: State)
    requires Run(Init(maxsize, maxWorkers), es, s) && Stop !in es
    ensures Halted(s) <==>
            s.pool != {} && CancelledBodies(es) + |BackoffWorkers(s)| == maxWorkers &&
            (forall w :: w in s.workers ==> !s.workers[w].pc.InCallback?) && (BackoffWorkers(s) != {} ==> Full(s))
    ensures maxsize <= 0 && CancelledBodies(es) < maxWorkers ==> !Halted(s)
  {
    var s0 := Init(maxsize, maxWorkers);
    assert GoneWorkers(s0) == {};
    GoneAlong(s0, es, s);
    HaltedIffAllGone(s);
  }

  // ----- a halted queue stays halted -----

  /** Whatever clients do short of `stop()`, a halted queue stays halted, its workers where they were. */
  lemma {:induction false} HaltedKept(s: State, e: Event)
    requires Halted(s) && Enabled(s, e) && e != Stop
    ensures Halted(Next(s, e)) && Next(s, e).workers == s.workers
    ensures forall t :: t in s.tasks ==> t in Next(s, e).tasks && Next(s, e).tasks[t].starts == s.tasks[t].starts
    ensures forall t :: t in Next(s, e).tasks && t !in s.tasks ==> Next(s, e).tasks[t].starts == 0
  {
    match e
    case Submit(_, _, _, _, _) => assert |Next(s, e).queue| == |s.queue| + 1;
    case _ =>
  }

  /** Without a `stop()`, no task of a halted queue is ever begun again. */
  lemma {:induction false} HaltedForever(s: State, es: seq<Event>, s': State)
    requires Halted(s) && Run(s, es, s') && Stop !in es
    ensures Halted(s') && s'.workers == s.workers
    ensures forall t :: t in s.tasks ==> t in s'.tasks && s'.tasks[t].starts == s.tasks[t].starts
    ensures forall t :: t in s'.tasks && t !in s.tasks ==> s'.tasks[t].starts == 0
    decreases |es|
  {
    if es != [] {
      assert es[0] in es;
      assert forall e :: e in es[1..] ==> e in es;
      HaltedKept(s, es[0]);
      HaltedForever(Next(s, es[0]), es[1..], s');
    }
  }

  const A: TaskId := "a"
  const B: TaskId := "b"

  const OneRunning: seq<Event> := [Start({0}), Submit(A, 100, 0, 3, NoCallback), Pop(0, A)]

  function AfterOneRunning(maxsize: int): State {
    Init(maxsize, 1).(
      tasks := map[A := Task(100, 0, RUNNING, 0, 3, NoCallback, 1)],
      running := {A}, workers := map[0 := Worker(Running(A), false)], pool := {0},
      metrics := Metrics(1, 0, 0, 0, 0))
  }

  function AfterStart(maxsize: int): State {
    Init(maxsize, 1).(workers := map[0 := Worker(Idle, false)], pool := {0})
  }

  function AfterSubmit(maxsize: int): State {
    AfterStart(maxsize).(
      tasks := map[A := Task(100, 0, PENDING, 0, 3, NoCallback, 0)],
      queue := multiset{A}, metrics := Metrics(1, 0, 0, 0, 0))
  }

  lemma {:induction false} StartReaches(maxsize: int)
    ensures Enabled(Init(maxsize, 1), Start({0})) && Next(Init(maxsize, 1), Start({0})) == AfterStart(maxsize)
  {
    assert Next(Init(maxsize, 1), Start({0})).workers == map[0 := Worker(Idle, false)];
  }

  lemma {:induction false} PopReaches(maxsize: int)
    ensures Enabled(AfterSubmit(maxsize), Pop(0, A))
    ensures PopStep(AfterSubmit(maxsize), 0, A) == AfterOneRunning(maxsize)
  {
    var s := PopStep(AfterSubmit(maxsize), 0, A);
    assert s.queue == multiset{};
    assert s.tasks == AfterOneRunning(maxsize).tasks;
    assert s.workers == AfterOneRunning(maxsize).workers;
  }

  lemma {:induction false} OneRunningReached(maxsize: int)
    requires maxsize == 1 || maxsize == 0
    ensures Run(Init(maxsize, 1), OneRunning, AfterOneRunning(maxsize))
  {
    var s3, submit := AfterOneRunning(maxsize), Submit(A, 100, 0, 3, NoCallback);
    assert Run(s3, [], s3);
    PopReaches(maxsize);
    RunOne(AfterSubmit(maxsize), Pop(0, A), [], s3);
    RunOne(AfterStart(maxsize), submit, [Pop(0, A)] + [], s3);
    StartReaches(maxsize);
    RunOne(Init(maxsize, 1), Start({0}), [submit] + ([Pop(0, A)] + []), s3);
    assert [Start({0})] + ([submit] + ([Pop(0, A)] + [])) == OneRunning;
  }

  /**
   With `maxsize = 1` and one worker, a task that fails while a second one is queued halts the queue:
   the worker waits for room that only it could make.
   */
  lemma {:induction false} RetryIntoFullQueueHalts() returns (es: seq<Event>, s: State)
    ensures Run(Init(1, 1), es, s) && Halted(s) && Stop !in es
    ensures s.tasks.Keys == {A, B} && s.tasks[A].status == PENDING && s.tasks[B].status == PENDING
    ensures A !in s.queue && B in s.queue
  {
    OneRunningReached(1);
    var s3, submit := AfterOneRunning(1), Submit(B, 100, 1, 3, NoCallback);
    RunThen(Init(1, 1), OneRunning, s3, submit);
    var s4 := Next(s3, submit);
    RunThen(Init(1, 1), OneRunning + [submit], s4, Finish(0, Raised));
    s := Next(s4, Finish(0, Raised));
    es := OneRunning + [submit] + [Finish(0, Raised)];
  }

  /** Once the last live worker's task is cancelled while running, the pool is dead and `start()` does not revive it. */
  lemma {:induction false} CancellingTheLastWorkerHalts(s: State, w: WorkerId, more: set<WorkerId>)
    requires Enabled(s, Finish(w, WasCancelled)) && s.pool != {} && s.stops == []
    requires forall u :: u in s.workers && u != w ==> s.workers[u].pc == Ended
    ensures var s' := Next(s, Finish(w, WasCancelled));
            && StartStep(s', more) == s'
            && if s.tasks[s.workers[w].pc.task].callback != AsyncCallback then Halted(s')
               else !Halted(s') && Enabled(s', CallbackDone(w)) && Halted(Next(s', CallbackDone(w)))
  {
    var s' := Next(s, Finish(w, WasCancelled));
    if s.tasks[s.workers[w].pc.task].callback == AsyncCallback {
      assert !IsStuck(s', w);
    }
  }

  lemma {:induction false} LastWorkerCanBeCancelled() returns (es: seq<Event>, s: State)
    ensures Run(Init(0, 1), es, s) && Halted(s) && Stop !in es
    ensures Cancel(A) in es && s.metrics.cancelled == 2 && s.tasks.Keys == {A}
  {
    OneRunningReached(0);
    var s3 := AfterOneRunning(0);
    RunThen(Init(0, 1), OneRunning, s3, Cancel(A));
    var s4 := Next(s3, Cancel(A));
    RunThen(Init(0, 1), OneRunning + [Cancel(A)], s4, Finish(0, WasCancelled));
    s := Next(s4, Finish(0, WasCancelled));
    es := OneRunning + [Cancel(A)] + [Finish(0, WasCancelled)];
    assert es[3] == Cancel(A);
  }
}
