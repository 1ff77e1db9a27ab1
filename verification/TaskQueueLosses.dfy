/** When a task is lost: released without a final status, in the queue no more and on no worker. */
module TaskQueueLosses {
  import opened TaskQueueModel
  import opened TaskQueuePlaces
  import opened TaskQueueLife
  import opened TaskQueueRuns
  import opened TaskQueueStalls

  predicate IsFinal(status: Status) {
    status == COMPLETED || status == FAILED || status == CANCELLED
  }

  ghost predicate Lost(s: State, t: TaskId) {
    t in s.tasks && s.released[t] > 0 && !IsFinal(s.tasks[t].status)
  }

  ghost predicate NoneLost(s: State) {
    forall t :: !Lost(s, t)
  }

  /** The step that loses a task: a CancelledError reaches a worker in backoff, and its task is still to be retried. */
  predicate Loses(s: State, e: Event) {
    e.Deliver? && e.w in s.workers && s.workers[e.w].pc.Backoff? && s.workers[e.w].pc.task in s.tasks &&
    s.tasks[s.workers[e.w].pc.task].status == PENDING
  }

  // ----- what was released before -----

  lemma {:induction false} ReleasedIsNowhere(s: State, t: TaskId)
    requires Inv(s) && s.released[t] > 0
    ensures t in s.tasks && s.queue[t] == 0 && t !in s.running
    ensures forall w :: w in s.workers ==> !Holds(s.workers[w], t)
  {
    assert Placed(s, t);
    forall w | w in s.workers ensures !Holds(s.workers[w], t) {
      if Holds(s.workers[w], t) {
        SomeHolder(s, w, t);
      }
    }
  }

  lemma {:induction false} NowhereKept(s: State, e: Event, t: TaskId)
    requires Enabled(s, e) && !LetsGo(e) && t in s.tasks && s.queue[t] == 0 && t !in s.running
    ensures t in Next(s, e).tasks && Next(s, e).released[t] == s.released[t]
    ensures Next(s, e).tasks[t] == s.tasks[t] ||
            (s.tasks[t].status == PENDING && Next(s, e).tasks[t] == s.tasks[t].(status := CANCELLED))
  {
  }

  lemma {:induction false} UnheldReleased(s: State, e: Event, t: TaskId)
    requires Enabled(s, e) && LetsGo(e) && !Holds(s.workers[e.w], t)
    ensures Next(s, e).released[t] == s.released[t]
  {
    match e
    case Finish(w, outcome) => FinishTouches(s, w, outcome);
    case Deliver(w) => if s.workers[w].pc.Backoff? { BackoffEndTouches(s, e); }
    case Requeue(w) => BackoffEndTouches(s, e);
  }

  /** A released task is not touched again, except that a `cancel` still finds a PENDING one. */
  lemma {:induction false} ReleasedKept(s: State, e: Event, t: TaskId)
    requires Inv(s) && Enabled(s, e) && s.released[t] > 0
    ensures t in s.tasks && t in Next(s, e).tasks && Next(s, e).released[t] == s.released[t]
    ensures Next(s, e).tasks[t] == s.tasks[t] ||
            (s.tasks[t].status == PENDING && Next(s, e).tasks[t] == s.tasks[t].(status := CANCELLED))
  {
    ReleasedIsNowhere(s, t);
    if LetsGo(e) {
      OtherHeldKept(s, e, t);
      UnheldReleased(s, e, t);
    } else {
      NowhereKept(s, e, t);
    }
  }

  /** What has been released, lost tasks among it, is never begun again. */
  lemma {:induction false} ReleasedForever(s: State, es: seq<Event>, s': State, t: TaskId)
    requires Inv(s) && Run(s, es, s') && s.released[t] > 0
    ensures t in s.tasks && t in s'.tasks && s'.released[t] > 0 && s'.tasks[t].starts == s.tasks[t].starts
    ensures s'.tasks[t].status == s.tasks[t].status || (s.tasks[t].status == PENDING && s'.tasks[t].status == CANCELLED)
    decreases |es|
  {
    if es == [] {
      assert Placed(s, t);
    } else {
      ReleasedKept(s, es[0], t);
      InvKept(s, es[0]);
      ReleasedForever(Next(s, es[0]), es[1..], s', t);
    }
  }

  // ----- what a step releases -----

  lemma {:induction false} ReleasedByOther(s: State, e: Event, t: TaskId)
    requires Enabled(s, e) && !LetsGo(e) && s.released[t] == 0 && Next(s, e).released[t] > 0
    ensures t in Next(s, e).tasks && Next(s, e).tasks[t].status == CANCELLED
  {
  }

  lemma {:induction false} ReleasedByFinish(s: State, w: WorkerId, outcome: Outcome)
    requires Enabled(s, Finish(w, outcome))
    ensures var t, s' := s.workers[w].pc.task, FinishStep(s, w, outcome);
            s.released[t] == 0 && s'.released[t] > 0 ==> !Lost(s', t)
  {
  }

  lemma {:induction false} ReleasedByBackoffEnd(s: State, e: Event)
    requires Enabled(s, e) && (e.Deliver? || e.Requeue?) && s.workers[e.w].pc.Backoff?
    ensures var t, s' := s.workers[e.w].pc.task, Next(s, e);
            && s'.released[t] == s.released[t] + (if e.Deliver? then 1 else 0)
            && t in s'.tasks && s'.tasks[t].status == s.tasks[t].status
  {
  }

  lemma {:induction false} NewlyReleased(s: State, e: Event, t: TaskId)
    requires Inv(s) && Enabled(s, e) && s.released[t] == 0 && Next(s, e).released[t] > 0
    ensures Lost(Next(s, e), t) <==> Loses(s, e)
  {
    if !LetsGo(e) {
      ReleasedByOther(s, e, t);
    } else {
      if !Holds(s.workers[e.w], t) {
        UnheldReleased(s, e, t);
      }
      if e.Finish? {
        ReleasedByFinish(s, e.w, e.outcome);
      } else {
        ReleasedByBackoffEnd(s, e);
        assert Consistent(s, t) && HeldOk(s.workers[e.w].pc, s.tasks[t]);
      }
    }
  }

  /** The exact condition, step by step: a step loses a task if and only if it is such a delivery. */
  lemma {:induction false} LostIffLoses(s: State, e: Event)
    requires Inv(s) && NoneLost(s) && Enabled(s, e)
    ensures NoneLost(Next(s, e)) <==> !Loses(s, e)
  {
    var s' := Next(s, e);
    if Loses(s, e) {
      var t := s.workers[e.w].pc.task;
      assert Placed(s, t);
      SomeHolder(s, e.w, t);
      ReleasedByBackoffEnd(s, e);
      NewlyReleased(s, e, t);
    } else {
      forall t ensures !Lost(s', t) {
        assert !Lost(s, t);
        if s.released[t] > 0 {
          ReleasedKept(s, e, t);
        } else if s'.released[t] > 0 {
          NewlyReleased(s, e, t);
        }
      }
    }
  }

  // ----- over whole runs -----

  /** No state on the way, the last one included, has a lost task. */
  ghost predicate NeverLost(s: State, es: seq<Event>)
    decreases |es|
  {
    NoneLost(s) && (es != [] && Enabled(s, es[0]) ==> NeverLost(Next(s, es[0]), es[1..]))
  }

  ghost predicate NoLosingStep(s: State, es: seq<Event>)
    decreases |es|
  {
    es != [] && Enabled(s, es[0]) ==> !Loses(s, es[0]) && NoLosingStep(Next(s, es[0]), es[1..])
  }

  lemma {:induction false} NeverLostAlong(s: State, es: seq<Event>, s': State)
    requires Inv(s) && NoneLost(s) && Run(s, es, s')
    ensures NeverLost(s, es) <==> NoLosingStep(s, es)
    decreases |es|
  {
    if es != [] {
      LostIffLoses(s, es[0]);
      if !Loses(s, es[0]) {
        InvKept(s, es[0]);
        NeverLostAlong(Next(s, es[0]), es[1..], s');
      } else {
        assert !NeverLost(Next(s, es[0]), es[1..]);
      }
    }
  }

  lemma {:induction false} NeverLostAtEnd(s: State, es: seq<Event>, s': State)
    requires Run(s, es, s') && NeverLost(s, es)
    ensures NoneLost(s')
    decreases |es|
  {
    if es != [] {
      NeverLostAtEnd(Next(s, es[0]), es[1..], s');
    }
  }

  /** In every interleaving: no task is ever lost if and only if no CancelledError reaches a backoff before a retry. */
  lemma {:induction false} LostExactlyInBackoff(maxsize: int, maxWorkers: nat, es: seq<Event>, s: State)
    requires Run(Init(maxsize, maxWorkers), es, s)
    ensures NeverLost(Init(maxsize, maxWorkers), es) <==> NoLosingStep(Init(maxsize, maxWorkers), es)
  {
    InitInv(maxsize, maxWorkers);
    NeverLostAlong(Init(maxsize, maxWorkers), es, s);
  }

  // ----- only a stop() that times out gets there -----

  /** A worker in backoff that is asked to cancel has a CANCELLED task. */
  ghost predicate BackoffsSettled(s: State) {
    forall w :: w in s.workers && s.workers[w].cancelRequested && s.workers[w].pc.Backoff? ==>
      s.workers[w].pc.task in s.tasks && s.tasks[s.workers[w].pc.task].status == CANCELLED
  }

  lemma {:induction false} SettledByStop(s: State)
    requires Inv(s) && BackoffsSettled(s)
    ensures BackoffsSettled(StopStep(s))
  {
    var s' := StopStep(s);
    forall w | w in s'.workers && s'.workers[w].cancelRequested && s'.workers[w].pc.Backoff?
      ensures s'.workers[w].pc.task in s'.tasks && s'.tasks[s'.workers[w].pc.task].status == CANCELLED
    {
      var t := s.workers[w].pc.task;
      assert Placed(s, t);
      SomeHolder(s, w, t);
    }
  }

  lemma {:induction false} SettledByPop(s: State, w: WorkerId, id: TaskId)
    requires Placed(s, id) && BackoffsSettled(s) && Takes(s, w, id)
    ensures BackoffsSettled(PopStep(s, w, id))
  {
    forall u | u in s.workers ensures !Holds(s.workers[u], id) {
      NoHolder(s, u, id);
    }
  }

  lemma {:induction false} NoRequestLeft(s: State, e: Event)
    requires Enabled(s, e) && LetsGo(e)
    ensures !Next(s, e).workers[e.w].cancelRequested
  {
  }

  lemma {:induction false} SettledByHolder(s: State, e: Event)
    requires Enabled(s, e) && LetsGo(e) && (s.workers[e.w].pc.Running? || s.workers[e.w].pc.Backoff?)
    requires Placed(s, s.workers[e.w].pc.task) && BackoffsSettled(s)
    ensures BackoffsSettled(Next(s, e))
  {
    var t := s.workers[e.w].pc.task;
    if e.Finish? {
      FinishTouches(s, e.w, e.outcome);
    } else {
      BackoffEndTouches(s, e);
    }
    NoRequestLeft(s, e);
    LetGoLeavesNoHolder(s, Next(s, e), e.w, t);
  }

  lemma {:induction false} SettledByOther(s: State, e: Event)
    requires BackoffsSettled(s) && Enabled(s, e) && !e.Finish? && !e.Requeue? && !e.Pop? && e != Stop && !e.StopTimeout?
    requires e.Deliver? ==> !s.workers[e.w].pc.Backoff?
    ensures BackoffsSettled(Next(s, e))
  {
  }

  lemma {:induction false} SettledKept(s: State, e: Event)
    requires Inv(s) && BackoffsSettled(s) && Enabled(s, e) && !e.StopTimeout?
    ensures BackoffsSettled(Next(s, e))
  {
    if e == Stop {
      SettledByStop(s);
    } else if e.Pop? {
      assert Placed(s, e.id);
      SettledByPop(s, e.w, e.id);
    } else if LetsGo(e) && (s.workers[e.w].pc.Running? || s.workers[e.w].pc.Backoff?) {
      assert Placed(s, s.workers[e.w].pc.task);
      SettledByHolder(s, e);
    } else {
      SettledByOther(s, e);
    }
  }

  lemma {:induction false} SettledAlong(s: State, es: seq<Event>, s': State)
    requires Inv(s) && BackoffsSettled(s) && Run(s, es, s') && forall e :: e in es ==> !e.StopTimeout?
    ensures NoLosingStep(s, es)
    decreases |es|
  {
    if es != [] {
      assert es[0] in es;
      assert forall e :: e in es[1..] ==> e in es;
      InvKept(s, es[0]);
      SettledKept(s, es[0]);
      SettledAlong(Next(s, es[0]), es[1..], s');
    }
  }

  /** Unless a `stop()` runs into its timeout, the tasks that are no longer anywhere have reached a final status. */
  lemma {:induction false} ReleasedTasksAreFinal(maxsize: int, maxWorkers: nat, es: seq<Event>, s: State, t: TaskId)
    requires Run(Init(maxsize, maxWorkers), es, s) && t in s.tasks
    requires forall e :: e in es ==> !e.StopTimeout?
    ensures s.released[t] > 0 ==> IsFinal(s.tasks[t].status)
    ensures s.tasks[t].status == PENDING || s.tasks[t].status == RUNNING ==> QueuedOnce(s, t) || HeldByOne(s, t)
  {
    InitInv(maxsize, maxWorkers);
    SettledAlong(Init(maxsize, maxWorkers), es, s);
    NeverLostAlong(Init(maxsize, maxWorkers), es, s);
    NeverLostAtEnd(Init(maxsize, maxWorkers), es, s);
    assert !Lost(s, t);
    ExactlyOnePlace(maxsize, maxWorkers, es, s, t);
  }

  function Swallowed(pc: Pc, cancelRequested: bool, stopTimedOut: bool): State {
    var id := A;
    AfterOneRunning(0).(
      shutdown := true, stops := [StopCall({0}, stopTimedOut)],
      workers := map[0 := Worker(pc, cancelRequested)],
      tasks := map[id := if pc.Running? then Task(100, 0, CANCELLED, 0, 3, NoCallback, 1)
                         else Task(100, 0, PENDING, 1, 3, NoCallback, 1)],
      metrics := Metrics(1, 0, 0, 1, if pc.Running? then 0 else 1))
  }

  lemma {:induction false} StopReaches()
    ensures StopStep(AfterOneRunning(0)) == Swallowed(Running(A), true, false)
  {
    var s := StopStep(AfterOneRunning(0));
    assert s.tasks == map[A := Task(100, 0, CANCELLED, 0, 3, NoCallback, 1)];
    assert s.workers == map[0 := Worker(Running(A), true)];
  }

  lemma {:induction false} RaiseReaches()
    ensures Enabled(Swallowed(Running(A), true, false), Finish(0, Raised))
    ensures FinishStep(Swallowed(Running(A), true, false), 0, Raised) == Swallowed(Backoff(A, 1), false, false)
  {
    var s := FinishStep(Swallowed(Running(A), true, false), 0, Raised);
    assert s.tasks == map[A := Task(100, 0, PENDING, 1, 3, NoCallback, 1)];
    assert s.workers == map[0 := Worker(Backoff(A, 1), false)];
  }

  lemma {:induction false} TimeoutReaches()
    ensures Enabled(Swallowed(Backoff(A, 1), false, false), StopTimeout(0))
    ensures Next(Swallowed(Backoff(A, 1), false, false), StopTimeout(0)) == Swallowed(Backoff(A, 1), true, true)
  {
    var s := Next(Swallowed(Backoff(A, 1), false, false), StopTimeout(0));
    assert s.workers == map[0 := Worker(Backoff(A, 1), true)];
    assert s.stops == [StopCall({0}, true)];
  }

  lemma {:induction false} RaiseAfterStop(es: seq<Event>)
    requires Run(Init(0, 1), es, AfterOneRunning(0))
    ensures Run(Init(0, 1), es + [Stop] + [Finish(0, Raised)], Swallowed(Backoff(A, 1), false, false))
  {
    StopReaches();
    RunThen(Init(0, 1), es, AfterOneRunning(0), Stop);
    RaiseReaches();
    RunThen(Init(0, 1), es + [Stop], Swallowed(Running(A), true, false), Finish(0, Raised));
  }

  lemma {:induction false} TimeoutDrops(es: seq<Event>) returns (s: State)
    requires Run(Init(0, 1), es, Swallowed(Backoff(A, 1), false, false))
    ensures Run(Init(0, 1), es + [StopTimeout(0)] + [Deliver(0)], s)
    ensures s == DeliverStep(Swallowed(Backoff(A, 1), true, true), 0)
  {
    TimeoutReaches();
    RunThen(Init(0, 1), es, Swallowed(Backoff(A, 1), false, false), StopTimeout(0));
    RunThen(Init(0, 1), es + [StopTimeout(0)], Swallowed(Backoff(A, 1), true, true), Deliver(0));
    s := DeliverStep(Swallowed(Backoff(A, 1), true, true), 0);
  }

  /**
   With a timeout it fails: the body swallows the first cancellation by raising, the task goes into backoff,
   and the second cancellation drops it while it is PENDING. Nothing will ever run it.
   */
  lemma {:induction false} StopTimeoutLosesATask() returns (es: seq<Event>, s: State)
    ensures Run(Init(0, 1), es, s)
    ensures A in s.tasks && s.tasks[A].status == PENDING && s.released[A] == 1 && A !in s.queue && s.running == {}
  {
    OneRunningReached(0);
    RaiseAfterStop(OneRunning);
    s := TimeoutDrops(OneRunning + [Stop] + [Finish(0, Raised)]);
    es := OneRunning + [Stop] + [Finish(0, Raised)] + [StopTimeout(0)] + [Deliver(0)];
  }
}
