/** What holds over every interleaving of clients and workers, from an empty queue on. */
module TaskQueueRuns {
  import opened TaskQueueModel
  import opened TaskQueuePlaces
  import opened TaskQueueLife
  import opened TaskQueueCounters

  ghost predicate Inv(s: State) {
    AllPlaced(s) && AllConsistent(s) && ReportsKnown(s) && Counters(s)
  }

  lemma {:induction false} InitInv(maxsize: int, maxWorkers: nat)
    ensures Inv(Init(maxsize, maxWorkers))
  {
    var s := Init(maxsize, maxWorkers);
    forall t ensures Placed(s, t) {
      assert Holders(s, t) == {};
    }
    assert InStatus(s.tasks, COMPLETED) == {} && InStatus(s.tasks, FAILED) == {};
  }

  lemma {:induction false} InvKept(s: State, e: Event)
    requires Inv(s) && Enabled(s, e)
    ensures Inv(Next(s, e))
  {
    PlacesKept(s, e);
    LivesKept(s, e);
    CountersKept(s, e);
  }

  lemma {:induction false} InvAlong(s: State, es: seq<Event>, s': State)
    requires Inv(s) && Run(s, es, s')
    ensures Inv(s')
    decreases |es|
  {
    if es != [] {
      InvKept(s, es[0]);
      InvAlong(Next(s, es[0]), es[1..], s');
    }
  }

  lemma {:induction false} Reachable(maxsize: int, maxWorkers: nat, es: seq<Event>, s: State)
    requires Run(Init(maxsize, maxWorkers), es, s)
    ensures Inv(s)
  {
    InitInv(maxsize, maxWorkers);
    InvAlong(Init(maxsize, maxWorkers), es, s);
  }

  // ----- places -----

  predicate QueuedOnce(s: State, t: TaskId) { s.queue[t] == 1 }

  predicate ReleasedOnce(s: State, t: TaskId) { s.released[t] == 1 }

  ghost predicate HeldByOne(s: State, t: TaskId) {
    exists w :: w in s.workers && Holders(s, t) == {w}
  }

  /** A submitted task is queued once, held by exactly one worker, or released once; never two of these. */
  lemma {:induction false} ExactlyOnePlace(maxsize: int, maxWorkers: nat, es: seq<Event>, s: State, t: TaskId)
    requires Run(Init(maxsize, maxWorkers), es, s) && t in s.tasks
    ensures QueuedOnce(s, t) || HeldByOne(s, t) || ReleasedOnce(s, t)
    ensures QueuedOnce(s, t) ==> Holders(s, t) == {} && s.released[t] == 0
    ensures HeldByOne(s, t) ==> s.queue[t] == 0 && s.released[t] == 0
    ensures ReleasedOnce(s, t) ==> s.queue[t] == 0 && Holders(s, t) == {}
    ensures t in s.running <==> HeldByOne(s, t)
  {
    Reachable(maxsize, maxWorkers, es, s);
    assert Placed(s, t);
    if HoldCount(s, t) == 1 {
      Singleton(Holders(s, t));
    }
  }

  lemma {:induction false} Singleton<T>(a: set<T>)
    requires |a| == 1
    ensures exists x :: x in a && a == {x}
  {
    var x :| x in a;
    assert |a - {x}| == 0;
    assert a == {x};
  }

  /** No task runs on two workers, and `del self._running[task.id]` always finds its key. */
  lemma {:induction false} RunningEntryIsThere(maxsize: int, maxWorkers: nat, es: seq<Event>, s: State, w: WorkerId, u: WorkerId)
    requires Run(Init(maxsize, maxWorkers), es, s)
    requires w in s.workers && (s.workers[w].pc.Running? || s.workers[w].pc.Backoff?)
    ensures s.workers[w].pc.task in s.running && s.workers[w].pc.task in s.tasks
    ensures u in s.workers && Holds(s.workers[u], s.workers[w].pc.task) ==> u == w
  {
    Reachable(maxsize, maxWorkers, es, s);
    var t := s.workers[w].pc.task;
    assert Placed(s, t);
    SomeHolder(s, w, t);
    if u in s.workers && Holds(s.workers[u], t) {
      SoleHolder(s, w, u, t);
    }
  }

  // ----- statuses and attempts -----

  lemma {:induction false} FinalIsNowhere(s: State, t: TaskId)
    requires Inv(s) && t in s.tasks
    requires s.tasks[t].status == COMPLETED || s.tasks[t].status == FAILED
    ensures s.queue[t] == 0 && t !in s.running
    ensures forall w :: w in s.workers ==> !Holds(s.workers[w], t)
  {
    assert Placed(s, t) && Consistent(s, t);
    forall w | w in s.workers ensures !Holds(s.workers[w], t) {
      if Holds(s.workers[w], t) {
        HeldIsLive(s, w, t);
      }
    }
    if t in s.running {
      RunningIsLive(s, t);
    }
  }

  /** The events after which a worker may have changed the task it was holding. */
  predicate LetsGo(e: Event) {
    e.Finish? || e.Deliver? || e.Requeue?
  }

  lemma {:induction false} UnheldKept(s: State, e: Event, t: TaskId)
    requires Enabled(s, e) && !LetsGo(e) && t in s.tasks && s.queue[t] == 0 && t !in s.running
    requires s.tasks[t].status == COMPLETED || s.tasks[t].status == FAILED
    ensures t in Next(s, e).tasks && Next(s, e).tasks[t] == s.tasks[t]
  {
  }

  lemma {:induction false} OtherHeldKept(s: State, e: Event, t: TaskId)
    requires Enabled(s, e) && LetsGo(e) && t in s.tasks && !Holds(s.workers[e.w], t)
    ensures t in Next(s, e).tasks && Next(s, e).tasks[t] == s.tasks[t]
  {
    match e
    case Finish(w, outcome) => FinishTouches(s, w, outcome);
    case Deliver(w) => if s.workers[w].pc.Backoff? { BackoffEndTouches(s, e); }
    case Requeue(w) => BackoffEndTouches(s, e);
  }

  /** What a step can do to a task that is there: only beginning it adds a start, and a callback only goes. */
  ghost predicate TaskGoesOn(s: State, s': State, e: Event, t: TaskId)
    requires t in s.tasks
  {
    t in s'.tasks &&
    var x, y := s.tasks[t], s'.tasks[t];
    && y.priority == x.priority && y.createdAt == x.createdAt
    && y.starts == x.starts + (if e.Pop? && e.id == t && x.status != CANCELLED then 1 else 0)
    && (y.callback == x.callback || (y.callback == NoCallback && LetsGo(e)))
    && (t in s'.running ==> t in s.running || y.starts == x.starts + 1)
    && (y.status == COMPLETED ==> x.status == COMPLETED || e.Finish?)
  }

  lemma {:induction false} OwnTaskGoesOn(s: State, e: Event)
    requires Enabled(s, e) && LetsGo(e) && (e.Finish? || s.workers[e.w].pc.Backoff?)
    ensures TaskGoesOn(s, Next(s, e), e, s.workers[e.w].pc.task)
  {
  }

  lemma {:induction false} RunningOnlyLoses(s: State, e: Event)
    requires Enabled(s, e) && LetsGo(e)
    ensures Next(s, e).running <= s.running
  {
  }

  lemma {:induction false} TaskGoesOnAside(s: State, e: Event, t: TaskId)
    requires Enabled(s, e) && !LetsGo(e) && !e.Pop? && t in s.tasks
    ensures TaskGoesOn(s, Next(s, e), e, t)
  {
  }

  lemma {:induction false} TaskGoesOnByPop(s: State, w: WorkerId, id: TaskId, t: TaskId)
    requires Takes(s, w, id) && t in s.tasks
    ensures TaskGoesOn(s, PopStep(s, w, id), Pop(w, id), t)
  {
  }

  lemma {:induction false} EveryTaskGoesOn(s: State, e: Event, t: TaskId)
    requires Enabled(s, e) && t in s.tasks
    ensures TaskGoesOn(s, Next(s, e), e, t)
  {
    if e.Pop? {
      TaskGoesOnByPop(s, e.w, e.id, t);
    } else if !LetsGo(e) {
      TaskGoesOnAside(s, e, t);
    } else {
      RunningOnlyLoses(s, e);
      if Holds(s.workers[e.w], t) {
        OwnTaskGoesOn(s, e);
      } else {
        OtherHeldKept(s, e, t);
      }
    }
  }

  /** COMPLETED and FAILED are for good: no step changes the task again. */
  lemma {:induction false} FinalKept(s: State, e: Event, t: TaskId)
    requires Inv(s) && Enabled(s, e) && t in s.tasks
    requires s.tasks[t].status == COMPLETED || s.tasks[t].status == FAILED
    ensures t in Next(s, e).tasks && Next(s, e).tasks[t] == s.tasks[t]
  {
    FinalIsNowhere(s, t);
    if LetsGo(e) {
      OtherHeldKept(s, e, t);
    } else {
      UnheldKept(s, e, t);
    }
  }

  lemma {:induction false} FinalForever(s: State, es: seq<Event>, s': State, t: TaskId)
    requires Inv(s) && Run(s, es, s') && t in s.tasks
    requires s.tasks[t].status == COMPLETED || s.tasks[t].status == FAILED
    ensures t in s'.tasks && s'.tasks[t] == s.tasks[t]
    decreases |es|
  {
    if es != [] {
      InvKept(s, es[0]);
      FinalKept(s, es[0], t);
      FinalForever(Next(s, es[0]), es[1..], s', t);
    }
  }

  /**
   How an attempt ends: a body that returns completes its task, one that is cancelled cancels it and ends the worker, and
   one that raises sends it into backoff while retries are left and fails it otherwise. Each is counted once.
   */
  lemma {:induction false} AttemptEnds(s: State, w: WorkerId, outcome: Outcome, id: TaskId, s': State)
    requires Enabled(s, Finish(w, outcome)) && id == s.workers[w].pc.task && s' == Next(s, Finish(w, outcome))
    ensures id in s'.tasks && w in s'.workers && s'.queue == s.queue && s'.tasks[id].starts == s.tasks[id].starts
    ensures outcome == Returned ==>
              s'.tasks[id].status == COMPLETED && s'.metrics == s.metrics.(completed := s.metrics.completed + 1)
    ensures outcome == WasCancelled ==>
              s'.tasks[id].status == CANCELLED && s'.metrics == s.metrics.(cancelled := s.metrics.cancelled + 1) &&
              (s'.workers[w].pc == Ended || s'.workers[w].pc == InCallback(true))
    ensures outcome == Raised && s.tasks[id].retryCount >= s.tasks[id].maxRetries ==>
              s'.tasks[id].status == FAILED && s'.metrics == s.metrics.(failed := s.metrics.failed + 1)
    ensures outcome == Raised && s.tasks[id].retryCount < s.tasks[id].maxRetries ==>
              s'.tasks[id] == s.tasks[id].(status := PENDING, retryCount := s.tasks[id].retryCount + 1) &&
              s'.workers[w].pc.Backoff? && s'.workers[w].pc.task == id && s'.running == s.running &&
              s'.metrics == s.metrics.(retries := s.metrics.retries + 1)
    ensures outcome != Raised || s.tasks[id].retryCount >= s.tasks[id].maxRetries ==>
              s'.running == s.running - {id} && s'.tasks[id].retryCount == s.tasks[id].retryCount
    ensures s.tasks[id].callback != AsyncCallback && !s'.workers[w].pc.Backoff? ==>
              s'.workers[w].pc == if s.shutdown || outcome == WasCancelled then Ended else Idle
  {
    match outcome
    case Returned =>
    case WasCancelled =>
    case Raised =>
  }

  /** Retries and attempts are bounded by `max_retries`, and a FAILED task has used all of them. */
  lemma {:induction false} AttemptsBounded(maxsize: int, maxWorkers: nat, es: seq<Event>, s: State, t: TaskId)
    requires Run(Init(maxsize, maxWorkers), es, s) && t in s.tasks
    ensures s.tasks[t].retryCount <= Budget(s.tasks[t])
    ensures s.tasks[t].starts <= Budget(s.tasks[t]) + 1
    ensures s.tasks[t].status == FAILED ==> s.tasks[t].starts == Budget(s.tasks[t]) + 1
    ensures s.tasks[t].status == COMPLETED ==> s.tasks[t].starts == s.tasks[t].retryCount + 1
  {
    Reachable(maxsize, maxWorkers, es, s);
    assert Placed(s, t) && Consistent(s, t);
    if HoldCount(s, t) == 1 {
      Singleton(Holders(s, t));
      var w :| w in Holders(s, t);
      assert HeldOk(s.workers[w].pc, s.tasks[t]);
    }
  }

  /** The backoff before retry `k` is `2^(k-1)` seconds, never more than a minute. */
  lemma {:induction false} BackoffSchedule(maxsize: int, maxWorkers: nat, es: seq<Event>, s: State, w: WorkerId)
    requires Run(Init(maxsize, maxWorkers), es, s)
    requires w in s.workers && s.workers[w].pc.Backoff?
    ensures s.workers[w].pc.task in s.tasks
    ensures var k := s.tasks[s.workers[w].pc.task].retryCount;
            k >= 1 && s.workers[w].pc.delay == (if Pow2(k - 1) <= 60 then Pow2(k - 1) else 60)
  {
    RunningEntryIsThere(maxsize, maxWorkers, es, s, w, w);
    Reachable(maxsize, maxWorkers, es, s);
    var t := s.workers[w].pc.task;
    assert Consistent(s, t) && HeldOk(s.workers[w].pc, s.tasks[t]);
    CappedPow2(s.tasks[t].retryCount);
  }

  lemma {:induction false} CappedPow2(k: nat)
    requires k >= 1
    ensures BackoffDelay(k) == if Pow2(k - 1) <= 60 then Pow2(k - 1) else 60
    decreases k
  {
    assert Pow2(6) == 64 by {
      assert Pow2(3) == 8;
    }
    if k > 7 {
      CappedPow2(k - 1);
    } else {
      assert Pow2(3) == 8 && Pow2(5) == 32;
    }
  }

  // ----- metrics -----

  lemma {:induction false} MetricsExact(maxsize: int, maxWorkers: nat, es: seq<Event>, s: State)
    requires Run(Init(maxsize, maxWorkers), es, s)
    ensures Counters(s)
  {
    Reachable(maxsize, maxWorkers, es, s);
  }

  ghost function TotalOvercount(s: State, es: seq<Event>): nat
    decreases |es|
  {
    if es == [] || !Enabled(s, es[0]) then 0
    else Overcount(s, es[0]) + TotalOvercount(Next(s, es[0]), es[1..])
  }

  lemma {:induction false} ExcessAlong(s: State, es: seq<Event>, s': State, over: nat)
    requires Inv(s) && CancelExcess(s, over) && Run(s, es, s')
    ensures CancelExcess(s', over + TotalOvercount(s, es))
    decreases |es|
  {
    if es != [] {
      InvKept(s, es[0]);
      ExcessKept(s, es[0], over);
      ExcessAlong(Next(s, es[0]), es[1..], s', over + Overcount(s, es[0]));
    }
  }

  /**
   `tasks_cancelled` is the number of CANCELLED tasks plus one for every `cancel()` that hit a running task,
   every running task a second `stop()` or an earlier cancel had already marked, and every attempt that
   ended while its task was already marked.
   */
  lemma {:induction false} CancelledAccounting(maxsize: int, maxWorkers: nat, es: seq<Event>, s: State)
    requires Run(Init(maxsize, maxWorkers), es, s)
    ensures s.metrics.cancelled == CountIn(s.tasks, CANCELLED) + TotalOvercount(Init(maxsize, maxWorkers), es)
    ensures CountIn(s.tasks, CANCELLED) <= s.metrics.cancelled
  {
    InitInv(maxsize, maxWorkers);
    assert InStatus(Init(maxsize, maxWorkers).tasks, CANCELLED) == {};
    ExcessAlong(Init(maxsize, maxWorkers), es, s, 0);
  }

  /** Cancelling a running task whose body then stops counts it twice, and its worker will do no more work. */
  lemma {:induction false} CancelRunningCountsTwice(s: State, w: WorkerId, id: TaskId)
    requires Inv(s) && w in s.workers && s.workers[w].pc == Running(id)
    requires id in s.tasks && s.tasks[id].status == RUNNING
    ensures CancelAnswer(s, id) && Enabled(CancelStep(s, id), Finish(w, WasCancelled))
    ensures var s' := FinishStep(CancelStep(s, id), w, WasCancelled);
            s'.metrics.cancelled == s.metrics.cancelled + 2 &&
            CountIn(s'.tasks, CANCELLED) == CountIn(s.tasks, CANCELLED) + 1 &&
            (s'.workers[w].pc == Ended || s'.workers[w].pc == InCallback(true))
  {
    assert Placed(s, id) && Consistent(s, id);
    SomeHolder(s, w, id);
    var mid := CancelStep(s, id);
    var s' := Settle(mid, w, id, CANCELLED);
    assert s'.tasks == s.tasks[id := s'.tasks[id]];
    CountUpdate(s.tasks, id, s'.tasks[id], CANCELLED);
  }
}
