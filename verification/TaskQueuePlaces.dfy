/** Where a task is: in every interleaving it is queued once, held by one worker, or released for good. */
module TaskQueuePlaces {
  import opened TaskQueueModel

  predicate Holds(worker: Worker, t: TaskId) {
    (worker.pc.Running? || worker.pc.Backoff?) && worker.pc.task == t
  }

  ghost function Holders(s: State, t: TaskId): set<WorkerId> {
    set w | w in s.workers && Holds(s.workers[w], t)
  }

  ghost function HoldCount(s: State, t: TaskId): nat {
    |Holders(s, t)|
  }

  ghost predicate Placed(s: State, t: TaskId) {
    && s.queue[t] + HoldCount(s, t) + s.released[t] == (if t in s.tasks then 1 else 0)
    && (t in s.running <==> HoldCount(s, t) == 1)
  }

  ghost predicate AllPlaced(s: State) {
    forall t :: Placed(s, t)
  }

  function Held(worker: Worker, t: TaskId): nat {
    if Holds(worker, t) then 1 else 0
  }

  /** Only worker `w` moves. */
  lemma {:induction false} HoldersMove(s: State, s': State, w: WorkerId, t: TaskId)
    requires w in s.workers && w in s'.workers && s'.workers == s.workers[w := s'.workers[w]]
    ensures HoldCount(s', t) == HoldCount(s, t) - Held(s.workers[w], t) + Held(s'.workers[w], t)
  {
    var others := set u | u in s.workers && u != w && Holds(s.workers[u], t);
    assert Holders(s, t) == if Holds(s.workers[w], t) then others + {w} else others;
    assert Holders(s', t) == if Holds(s'.workers[w], t) then others + {w} else others;
  }

  lemma {:induction false} HoldersKept(s: State, s': State, t: TaskId)
    requires forall w :: w in s.workers && Holds(s.workers[w], t) <==> w in s'.workers && Holds(s'.workers[w], t)
    ensures HoldCount(s', t) == HoldCount(s, t)
  {
    assert Holders(s', t) == Holders(s, t);
  }

  lemma {:induction false} SomeHolder(s: State, w: WorkerId, t: TaskId)
    requires w in s.workers && Holds(s.workers[w], t)
    ensures HoldCount(s, t) >= 1
  {
    assert Holders(s, t) == (Holders(s, t) - {w}) + {w};
  }

  lemma {:induction false} PlacedByPop(s: State, w: WorkerId, id: TaskId, t: TaskId)
    requires Placed(s, t) && Placed(s, id) && Takes(s, w, id)
    ensures Placed(PopStep(s, w, id), t)
  {
    HoldersMove(s, PopStep(s, w, id), w, t);
  }

  /** A worker lets go of the task it holds; the task turns up in the queue or among the released, once. */
  lemma {:induction false} PlacedByLettingGo(s: State, s': State, w: WorkerId, id: TaskId, t: TaskId)
    requires Placed(s, t) && w in s.workers && Holds(s.workers[w], id) && id in s.tasks
    requires w in s'.workers && s'.workers == s.workers[w := s'.workers[w]]
    requires !s'.workers[w].pc.Running? && !s'.workers[w].pc.Backoff?
    requires s'.tasks.Keys == s.tasks.Keys && s'.running == s.running - {id}
    requires s'.queue[t] + s'.released[t] == s.queue[t] + s.released[t] + (if t == id then 1 else 0)
    ensures Placed(s', t)
  {
    HoldersMove(s, s', w, t);
    if t == id {
      SomeHolder(s, w, t);
    }
  }

  lemma {:induction false} PlacedByDeliver(s: State, w: WorkerId, t: TaskId)
    requires Placed(s, t) && Enabled(s, Deliver(w))
    ensures Placed(DeliverStep(s, w), t)
  {
    if s.workers[w].pc.Backoff? {
      PlacedByLettingGo(s, DeliverStep(s, w), w, s.workers[w].pc.task, t);
    } else {
      HoldersMove(s, DeliverStep(s, w), w, t);
    }
  }

  lemma {:induction false} PlacedBySettle(s: State, w: WorkerId, id: TaskId, status: Status, t: TaskId)
    requires Placed(s, t) && id in s.tasks && w in s.workers && Holds(s.workers[w], id)
    ensures Placed(Settle(s, w, id, status), t)
  {
    PlacedByLettingGo(s, Settle(s, w, id, status), w, id, t);
  }

  lemma {:induction false} PlacedByFinish(s: State, w: WorkerId, outcome: Outcome, t: TaskId)
    requires Placed(s, t) && Enabled(s, Finish(w, outcome))
    ensures Placed(FinishStep(s, w, outcome), t)
  {
    var id := s.workers[w].pc.task;
    match outcome
    case Returned => PlacedBySettle(s, w, id, COMPLETED, t);
    case WasCancelled => PlacedBySettle(s, w, id, CANCELLED, t);
    case Raised =>
      if s.tasks[id].retryCount < s.tasks[id].maxRetries {
        HoldersMove(s, RetryLater(s, w, id), w, t);
      } else {
        PlacedBySettle(s, w, id, FAILED, t);
      }
  }

  lemma {:induction false} PlacedByRequeue(s: State, w: WorkerId, t: TaskId)
    requires Placed(s, t) && Enabled(s, Requeue(w))
    ensures Placed(RequeueStep(s, w), t)
  {
    PlacedByLettingGo(s, RequeueStep(s, w), w, s.workers[w].pc.task, t);
  }

  lemma {:induction false} PlacedByOther(s: State, e: Event, t: TaskId)
    requires Placed(s, t) && Enabled(s, e) && !e.Pop? && !e.Deliver? && !e.Finish? && !e.Requeue?
    ensures Placed(Next(s, e), t)
  {
    HoldersKept(s, Next(s, e), t);
  }

  lemma {:induction false} PlacesKept(s: State, e: Event)
    requires AllPlaced(s) && Enabled(s, e)
    ensures AllPlaced(Next(s, e))
  {
    forall t ensures Placed(Next(s, e), t) {
      assert Placed(s, t);
      if e.Pop? {
        assert Placed(s, e.id);
        PlacedByPop(s, e.w, e.id, t);
      } else if e.Deliver? {
        PlacedByDeliver(s, e.w, t);
      } else if e.Finish? {
        PlacedByFinish(s, e.w, e.outcome, t);
      } else if e.Requeue? {
        PlacedByRequeue(s, e.w, t);
      } else {
        PlacedByOther(s, e, t);
      }
    }
  }
}
