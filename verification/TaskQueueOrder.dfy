/** In which order tasks are begun. */
module TaskQueueOrder {
  import opened TaskQueueModel
  import opened TaskQueuePlaces
  import opened TaskQueueRuns

  /** Lower numbers first, and among equal ones the task made earlier: what a worker may take comes before all else queued. */
  lemma {:induction false} PopTakesLowest(s: State, w: WorkerId, id: TaskId, t: TaskId)
    requires Enabled(s, Pop(w, id)) && t in s.queue && t in s.tasks && t != id
    ensures id in s.tasks
    ensures s.tasks[id].priority <= s.tasks[t].priority
    ensures s.tasks[id].priority == s.tasks[t].priority ==> s.tasks[id].createdAt < s.tasks[t].createdAt
  {
    assert Before(s.tasks[id], s.tasks[t]);
  }

  /** Any two tasks differ in priority or in the time they were made. */
  ghost predicate Ranked(s: State) {
    forall t, u :: t in s.tasks && u in s.tasks && t != u ==> Comparable(s, t, u)
  }

  predicate Comparable(s: State, t: TaskId, u: TaskId) {
    t in s.tasks && u in s.tasks && (Before(s.tasks[t], s.tasks[u]) || Before(s.tasks[u], s.tasks[t]))
  }

  lemma {:induction false} OnlySubmitAdds(s: State, e: Event, t: TaskId)
    requires Enabled(s, e) && t in Next(s, e).tasks && t !in s.tasks
    ensures e.Submit? && e.id == t
    ensures Next(s, e).tasks[t].priority == e.priority && Next(s, e).tasks[t].createdAt == e.createdAt
  {
  }

  lemma {:induction false} RankedKept(s: State, e: Event)
    requires Ranked(s) && Enabled(s, e)
    ensures Ranked(Next(s, e))
  {
    var s' := Next(s, e);
    forall t, u | t in s'.tasks && u in s'.tasks && t != u ensures Comparable(s', t, u) {
      if t in s.tasks && u in s.tasks {
        assert Comparable(s, t, u);
      }
      if t in s.tasks { EveryTaskGoesOn(s, e, t); } else { OnlySubmitAdds(s, e, t); }
      if u in s.tasks { EveryTaskGoesOn(s, e, u); } else { OnlySubmitAdds(s, e, u); }
    }
  }

  lemma {:induction false} RankedAlong(s: State, es: seq<Event>, s': State)
    requires Ranked(s) && Run(s, es, s')
    ensures Ranked(s')
    decreases |es|
  {
    if es != [] {
      RankedKept(s, es[0]);
      RankedAlong(Next(s, es[0]), es[1..], s');
    }
  }

  lemma {:induction false} FirstOf(s: State, ids: set<TaskId>) returns (first: TaskId)
    requires Ranked(s) && ids != {} && ids <= s.tasks.Keys
    ensures first in ids && forall t :: t in ids && t != first ==> Before(s.tasks[first], s.tasks[t])
  {
    first :| first in ids;
    if ids != {first} {
      var other := FirstOf(s, ids - {first});
      assert Comparable(s, first, other);
      if Before(s.tasks[other], s.tasks[first]) {
        first := other;
      }
    }
  }

  lemma {:induction false} OneIsFirst(s: State, first: TaskId)
    requires first in s.queue && first in s.tasks
    requires forall t :: t in s.tasks && t in s.queue && t != first ==> Before(s.tasks[first], s.tasks[t])
    ensures IsFirst(s, first) && forall t :: IsFirst(s, t) ==> t == first
  {
  }

  /** Whenever a worker is idle and something is queued, there is exactly one task it may take. */
  lemma {:induction false} IdleWorkerTakesOne(maxsize: int, maxWorkers: nat, es: seq<Event>, s: State, w: WorkerId)
    returns (id: TaskId)
    requires Run(Init(maxsize, maxWorkers), es, s) && s.queue != multiset{}
    requires w in s.workers && s.workers[w] == Worker(Idle, false)
    ensures Enabled(s, Pop(w, id)) && forall other :: Enabled(s, Pop(w, other)) ==> other == id
    ensures id in s.tasks && forall t :: t in s.queue && t in s.tasks && t != id ==>
              s.tasks[id].priority < s.tasks[t].priority ||
              (s.tasks[id].priority == s.tasks[t].priority && s.tasks[id].createdAt < s.tasks[t].createdAt)
  {
    Reachable(maxsize, maxWorkers, es, s);
    RankedAlong(Init(maxsize, maxWorkers), es, s);
    var queued := set t | t in s.tasks && t in s.queue;
    var some :| some in s.queue;
    assert Placed(s, some) && some in queued;
    id := FirstOf(s, queued);
    OneIsFirst(s, id);
  }

  /** `t` is queued in every state on the way. */
  ghost predicate StaysQueued(s: State, es: seq<Event>, t: TaskId)
    decreases |es|
  {
    t in s.queue && (es != [] && Enabled(s, es[0]) ==> StaysQueued(Next(s, es[0]), es[1..], t))
  }

  /** Priorities are kept to: while a task stays queued, none with a higher number, or made later with the same, is begun. */
  lemma {:induction false} NotOvertaken(s: State, es: seq<Event>, s': State, t: TaskId, later: TaskId)
    requires t in s.tasks && later in s.tasks
    requires s.tasks[t].priority < s.tasks[later].priority ||
             (s.tasks[t].priority == s.tasks[later].priority && s.tasks[t].createdAt < s.tasks[later].createdAt)
    requires Run(s, es, s') && StaysQueued(s, es, t)
    ensures later in s'.tasks && s'.tasks[later].starts == s.tasks[later].starts
    decreases |es|
  {
    if es != [] {
      EveryTaskGoesOn(s, es[0], t);
      EveryTaskGoesOn(s, es[0], later);
      if es[0].Pop? && es[0].id == later {
        PopTakesLowest(s, es[0].w, later, t);
      }
      NotOvertaken(Next(s, es[0]), es[1..], s', t, later);
    }
  }

  // ----- when clients and cancellations can go on -----

  /** A `submit` waits only for room; a cancelled worker can be reached wherever it waits for something but its task body. */
  lemma {:induction false} NothingElseIsWaitedFor(s: State, e: Event)
    requires Inv(s)
    ensures e.Submit? ==> (Enabled(s, e) <==>
              && e.id !in s.tasks && (s.maxsize <= 0 || |s.queue| < s.maxsize)
              && forall t :: t in s.tasks ==> s.tasks[t].priority != e.priority || s.tasks[t].createdAt != e.createdAt)
    ensures e.Deliver? ==> (Enabled(s, e) <==>
              && e.w in s.workers && s.workers[e.w].cancelRequested
              && !s.workers[e.w].pc.Running? && s.workers[e.w].pc != Ended)
    ensures e.StopFinish? ==> (Enabled(s, e) <==>
              e.call < |s.stops| && forall w :: w in s.stops[e.call].captured && w in s.workers ==> s.workers[w].pc == Ended)
  {
    if e.Deliver? && e.w in s.workers && s.workers[e.w].pc.Backoff? {
      assert Placed(s, s.workers[e.w].pc.task);
      SomeHolder(s, e.w, s.workers[e.w].pc.task);
    }
  }
}
