/** What the place of a task says about its status, its attempts and its callback. */
module TaskQueueLife {
  import opened TaskQueueModel
  import opened TaskQueuePlaces
  import opened Lists

  /** How many retries `retry_count < max_retries` can ever allow; a negative `max_retries` allows none. */
  function Budget(t: Task): nat {
    if t.maxRetries < 0 then 0 else t.maxRetries
  }

  predicate Unreported(s: State, t: TaskId) {
    forall i :: 0 <= i < |s.reports| ==> s.reports[i].task != t
  }

  predicate QueuedOk(x: Task) {
    (x.status == PENDING || x.status == CANCELLED) && x.starts == x.retryCount &&
    (x.callback != NoCallback ==> x.starts == 0)
  }

  predicate HeldOk(pc: Pc, x: Task) {
    match pc
    case Running(_) =>
      (x.status == RUNNING || x.status == CANCELLED) && x.starts == x.retryCount + 1 &&
      (x.callback != NoCallback ==> x.starts == 1)
    case Backoff(_, delay) =>
      (x.status == PENDING || x.status == CANCELLED) && x.starts == x.retryCount >= 1 &&
      delay == BackoffDelay(x.retryCount) &&
      (x.callback != NoCallback ==> x.starts == 1)
    case _ => true
  }

  predicate ReleasedOk(x: Task) {
    x.status != RUNNING && x.retryCount <= x.starts <= x.retryCount + 1 &&
    (x.callback != NoCallback ==> x.starts == 0 && x.status == CANCELLED) &&
    (x.status == COMPLETED || x.status == FAILED ==> x.starts == x.retryCount + 1) &&
    (x.status == FAILED ==> x.retryCount == Budget(x))
  }

  ghost predicate Consistent(s: State, t: TaskId)
    requires t in s.tasks
  {
    var x := s.tasks[t];
    && x.retryCount <= Budget(x)
    && (s.queue[t] > 0 ==> QueuedOk(x))
    && (s.released[t] > 0 ==> ReleasedOk(x))
    && (forall w :: w in s.workers && Holds(s.workers[w], t) ==> HeldOk(s.workers[w].pc, x))
    && (x.callback != NoCallback ==> Unreported(s, t))
  }

  ghost predicate AllConsistent(s: State) {
    forall t :: t in s.tasks ==> Consistent(s, t)
  }

  /** A step that leaves `t`, its place and its holders alone leaves its consistency alone. */
  lemma {:induction false} ConsistentFrame(s: State, s': State, t: TaskId)
    requires t in s.tasks && t in s'.tasks && s'.tasks[t] == s.tasks[t]
    requires s'.queue[t] == s.queue[t] && s'.released[t] == s.released[t]
    requires forall w :: w in s'.workers && Holds(s'.workers[w], t) ==>
               w in s.workers && s.workers[w].pc == s'.workers[w].pc
    requires Unreported(s, t) ==> Unreported(s', t)
    requires Consistent(s, t)
    ensures Consistent(s', t)
  {
    forall w | w in s'.workers && Holds(s'.workers[w], t) ensures HeldOk(s'.workers[w].pc, s'.tasks[t]) {
      assert Holds(s.workers[w], t);
    }
  }

  /** A worker step concerns its worker, one task, and at most one report about that task. */
  ghost predicate Touches(s: State, s': State, w: WorkerId, id: TaskId) {
    && s'.tasks.Keys == s.tasks.Keys && s'.workers.Keys == s.workers.Keys
    && (forall t :: t in s.tasks && t != id ==> s'.tasks[t] == s.tasks[t])
    && (forall t :: t != id ==> s'.queue[t] == s.queue[t] && s'.released[t] == s.released[t])
    && (forall u :: u in s.workers && u != w ==> s'.workers[u] == s.workers[u])
    && (w in s'.workers ==> forall t :: t != id ==> !Holds(s'.workers[w], t))
    && (s'.reports == s.reports || exists r: CallbackReport :: r.task == id && s'.reports == s.reports + [r])
  }

  lemma {:induction false} LetGoTouches(s: State, w: WorkerId, id: TaskId, ends: bool)
    requires id in s.tasks && w in s.workers
    ensures Touches(s, LetGo(s, w, id, ends), w, id)
  {
    var t := s.tasks[id];
    if t.callback != NoCallback {
      var r := CallbackReport(id, t.status == COMPLETED, t.retryCount);
      assert LetGo(s, w, id, ends).reports == s.reports + [r];
    }
  }

  lemma {:induction false} SettleTouches(s: State, w: WorkerId, id: TaskId, status: Status)
    requires id in s.tasks && w in s.workers
    ensures Touches(s, Settle(s, w, id, status), w, id)
  {
    LetGoTouches(Drop(WithTask(s, id, s.tasks[id].(status := status)), id)
                   .(metrics := Counted(s.metrics, status)), w, id, status == CANCELLED);
  }

  lemma {:induction false} FinishTouches(s: State, w: WorkerId, outcome: Outcome)
    requires Enabled(s, Finish(w, outcome))
    ensures Touches(s, FinishStep(s, w, outcome), w, s.workers[w].pc.task)
  {
    var id := s.workers[w].pc.task;
    match outcome
    case Returned => SettleTouches(s, w, id, COMPLETED);
    case WasCancelled => SettleTouches(s, w, id, CANCELLED);
    case Raised => SettleTouches(s, w, id, FAILED);
  }

  lemma {:induction false} BackoffEndTouches(s: State, e: Event)
    requires Enabled(s, e) && (e.Deliver? || e.Requeue?) && s.workers[e.w].pc.Backoff?
    ensures Touches(s, Next(s, e), e.w, s.workers[e.w].pc.task)
  {
    var id := s.workers[e.w].pc.task;
    if e.Deliver? {
      LetGoTouches(Drop(s, id), e.w, id, true);
    } else {
      LetGoTouches(s.(queue := s.queue + multiset{id}), e.w, id, false);
    }
  }

  lemma {:induction false} TouchedFrame(s: State, s': State, w: WorkerId, id: TaskId, t: TaskId)
    requires Touches(s, s', w, id) && t in s.tasks && t != id && Consistent(s, t)
    ensures Consistent(s', t)
  {
    ConsistentFrame(s, s', t);
  }

  lemma {:induction false} SoleHolder(s: State, w: WorkerId, u: WorkerId, t: TaskId)
    requires HoldCount(s, t) <= 1
    requires w in s.workers && Holds(s.workers[w], t) && u in s.workers && Holds(s.workers[u], t)
    ensures u == w
  {
    if u != w {
      assert {w, u} <= Holders(s, t);
      SubsetCount({w, u}, Holders(s, t));
    }
  }

  lemma {:induction false} NoHolder(s: State, w: WorkerId, t: TaskId)
    requires HoldCount(s, t) == 0 && w in s.workers
    ensures !Holds(s.workers[w], t)
  {
    if Holds(s.workers[w], t) {
      SomeHolder(s, w, t);
    }
  }

  lemma {:induction false} ConsistentByOwnPop(s: State, w: WorkerId, t: TaskId)
    requires Placed(s, t) && Takes(s, w, t) && Consistent(s, t)
    ensures Consistent(PopStep(s, w, t), t)
  {
    var s' := PopStep(s, w, t);
    forall u | u in s'.workers && u != w ensures !Holds(s'.workers[u], t) {
      NoHolder(s, u, t);
    }
  }

  lemma {:induction false} ConsistentByPop(s: State, w: WorkerId, id: TaskId, t: TaskId)
    requires Placed(s, t) && t in s.tasks && Consistent(s, t) && Takes(s, w, id)
    ensures Consistent(PopStep(s, w, id), t)
  {
    if t == id {
      ConsistentByOwnPop(s, w, t);
    } else {
      ConsistentFrame(s, PopStep(s, w, id), t);
    }
  }

  /** Once its only holder `w` has let go of `t`, nobody holds it. */
  lemma {:induction false} LetGoLeavesNoHolder(s: State, s': State, w: WorkerId, t: TaskId)
    requires Placed(s, t) && w in s.workers && Holds(s.workers[w], t)
    requires Touches(s, s', w, t)
    ensures forall u :: u in s'.workers && u != w ==> !Holds(s'.workers[u], t)
  {
    SomeHolder(s, w, t);
    forall u | u in s'.workers && u != w ensures !Holds(s'.workers[u], t) {
      if Holds(s.workers[u], t) {
        SoleHolder(s, w, u, t);
      }
    }
  }

  lemma {:induction false} ConsistentBySettle(s: State, w: WorkerId, t: TaskId, status: Status)
    requires w in s.workers && s.workers[w].pc.Running? && s.workers[w].pc.task == t && t in s.tasks
    requires Placed(s, t) && Consistent(s, t)
    requires status == COMPLETED || status == CANCELLED || status == FAILED
    requires status == FAILED ==> s.tasks[t].retryCount >= s.tasks[t].maxRetries
    ensures Consistent(Settle(s, w, t, status), t)
  {
    SomeHolder(s, w, t);
    assert HeldOk(s.workers[w].pc, s.tasks[t]);
    SettleTouches(s, w, t, status);
    LetGoLeavesNoHolder(s, Settle(s, w, t, status), w, t);
  }

  lemma {:induction false} ConsistentByRetry(s: State, w: WorkerId, t: TaskId)
    requires w in s.workers && s.workers[w].pc.Running? && s.workers[w].pc.task == t && t in s.tasks
    requires Placed(s, t) && Consistent(s, t) && s.tasks[t].retryCount < s.tasks[t].maxRetries
    ensures Consistent(RetryLater(s, w, t), t)
  {
    SomeHolder(s, w, t);
    assert HeldOk(s.workers[w].pc, s.tasks[t]);
    LetGoLeavesNoHolder(s, RetryLater(s, w, t), w, t);
  }

  lemma {:induction false} ConsistentByOwnFinish(s: State, w: WorkerId, outcome: Outcome)
    requires Enabled(s, Finish(w, outcome))
    requires Placed(s, s.workers[w].pc.task) && Consistent(s, s.workers[w].pc.task)
    ensures Consistent(FinishStep(s, w, outcome), s.workers[w].pc.task)
  {
    var t := s.workers[w].pc.task;
    match outcome
    case Returned => ConsistentBySettle(s, w, t, COMPLETED);
    case WasCancelled => ConsistentBySettle(s, w, t, CANCELLED);
    case Raised =>
      if s.tasks[t].retryCount < s.tasks[t].maxRetries {
        ConsistentByRetry(s, w, t);
      } else {
        ConsistentBySettle(s, w, t, FAILED);
      }
  }

  lemma {:induction false} ConsistentByFinish(s: State, w: WorkerId, outcome: Outcome, t: TaskId)
    requires Placed(s, t) && t in s.tasks && Consistent(s, t) && Enabled(s, Finish(w, outcome))
    ensures Consistent(FinishStep(s, w, outcome), t)
  {
    if t == s.workers[w].pc.task {
      ConsistentByOwnFinish(s, w, outcome);
    } else {
      FinishTouches(s, w, outcome);
      TouchedFrame(s, FinishStep(s, w, outcome), w, s.workers[w].pc.task, t);
    }
  }

  lemma {:induction false} ConsistentByOwnBackoffEnd(s: State, e: Event)
    requires Enabled(s, e) && (e.Deliver? || e.Requeue?) && s.workers[e.w].pc.Backoff?
    requires Placed(s, s.workers[e.w].pc.task) && Consistent(s, s.workers[e.w].pc.task)
    ensures Consistent(Next(s, e), s.workers[e.w].pc.task)
  {
    var t := s.workers[e.w].pc.task;
    SomeHolder(s, e.w, t);
    assert HeldOk(s.workers[e.w].pc, s.tasks[t]);
    BackoffEndTouches(s, e);
    LetGoLeavesNoHolder(s, Next(s, e), e.w, t);
  }

  lemma {:induction false} ConsistentByBackoffEnd(s: State, e: Event, t: TaskId)
    requires Placed(s, t) && t in s.tasks && Consistent(s, t) && Enabled(s, e)
    requires e.Deliver? || e.Requeue?
    ensures Consistent(Next(s, e), t)
  {
    if !s.workers[e.w].pc.Backoff? {
      ConsistentFrame(s, Next(s, e), t);
    } else if t == s.workers[e.w].pc.task {
      ConsistentByOwnBackoffEnd(s, e);
    } else {
      BackoffEndTouches(s, e);
      TouchedFrame(s, Next(s, e), e.w, s.workers[e.w].pc.task, t);
    }
  }

  lemma {:induction false} ConsistentByCancel(s: State, id: TaskId, t: TaskId)
    requires Placed(s, t) && t in s.tasks && Consistent(s, t)
    ensures Consistent(CancelStep(s, id), t)
  {
    if t != id {
      ConsistentFrame(s, CancelStep(s, id), t);
    }
  }

  lemma {:induction false} ConsistentByStop(s: State, t: TaskId)
    requires Placed(s, t) && t in s.tasks && Consistent(s, t)
    ensures Consistent(StopStep(s), t)
  {
    var s' := StopStep(s);
    if s.pool != {} {
      forall w | w in s'.workers && Holds(s'.workers[w], t) ensures HeldOk(s'.workers[w].pc, s'.tasks[t]) {
        assert Holds(s.workers[w], t);
        SomeHolder(s, w, t);
      }
    }
  }

  lemma {:induction false} ConsistentByOther(s: State, e: Event, t: TaskId)
    requires Placed(s, t) && Enabled(s, e) && t in s.tasks && Consistent(s, t)
    requires e.Submit? || e.Start? || e.StopTimeout? || e.StopFinish? || e.Poll? || e.CallbackDone?
    ensures Consistent(Next(s, e), t)
  {
    ConsistentFrame(s, Next(s, e), t);
  }

  ghost predicate ReportsKnown(s: State) {
    forall i :: 0 <= i < |s.reports| ==> s.reports[i].task in s.tasks
  }

  lemma {:induction false} ConsistentAtBirth(s: State, e: Event)
    requires e.Submit? && Enabled(s, e) && Placed(s, e.id) && ReportsKnown(s)
    ensures Consistent(Next(s, e), e.id)
  {
    forall w | w in s.workers ensures !Holds(s.workers[w], e.id) {
      NoHolder(s, w, e.id);
    }
  }

  lemma {:induction false} LifeGoesOn(s: State, e: Event, t: TaskId)
    requires Placed(s, t) && Enabled(s, e) && t in s.tasks && Consistent(s, t)
    ensures Consistent(Next(s, e), t)
  {
    match e
    case Cancel(id) => ConsistentByCancel(s, id, t);
    case Stop => ConsistentByStop(s, t);
    case Pop(w, id) => ConsistentByPop(s, w, id, t);
    case Finish(w, outcome) => ConsistentByFinish(s, w, outcome, t);
    case Deliver(_) => ConsistentByBackoffEnd(s, e, t);
    case Requeue(_) => ConsistentByBackoffEnd(s, e, t);
    case _ => ConsistentByOther(s, e, t);
  }

  lemma {:induction false} LifeKept(s: State, e: Event, t: TaskId)
    requires Placed(s, t) && ReportsKnown(s) && Enabled(s, e) && t in Next(s, e).tasks
    requires t in s.tasks ==> Consistent(s, t)
    ensures Consistent(Next(s, e), t)
  {
    if e.Submit? && t == e.id {
      ConsistentAtBirth(s, e);
    } else {
      LifeGoesOn(s, e, t);
    }
  }

  lemma {:induction false} ReportsKept(s: State, e: Event)
    requires ReportsKnown(s) && Enabled(s, e)
    ensures ReportsKnown(Next(s, e))
  {
    match e
    case Finish(w, outcome) => FinishTouches(s, w, outcome);
    case Deliver(w) => if s.workers[w].pc.Backoff? { BackoffEndTouches(s, e); }
    case Requeue(w) => BackoffEndTouches(s, e);
    case _ =>
  }

  lemma {:induction false} LivesKept(s: State, e: Event)
    requires AllPlaced(s) && AllConsistent(s) && ReportsKnown(s) && Enabled(s, e)
    ensures AllConsistent(Next(s, e)) && ReportsKnown(Next(s, e))
  {
    ReportsKept(s, e);
    forall t | t in Next(s, e).tasks ensures Consistent(Next(s, e), t) {
      assert Placed(s, t);
      LifeKept(s, e, t);
    }
  }
}
