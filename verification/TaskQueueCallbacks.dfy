/** When callbacks fire, how often, and what they are told. */
module TaskQueueCallbacks {
  import opened TaskQueueModel
  import opened TaskQueuePlaces
  import opened TaskQueueLife
  import opened TaskQueueCounters
  import opened TaskQueueRuns

  predicate Reported(s: State, t: TaskId) {
    exists i :: 0 <= i < |s.reports| && s.reports[i].task == t
  }

  predicate FirstTimeSuccess(s: State, t: TaskId) {
    t in s.tasks && s.tasks[t].status == COMPLETED && s.tasks[t].starts == 1 && s.tasks[t].retryCount == 0
  }

  /** The report is about a task whose first attempt is over, and tells whether that attempt completed it. */
  ghost predicate ReportOk(s: State, r: CallbackReport) {
    && r.task in s.tasks && s.tasks[r.task].callback == NoCallback
    && s.tasks[r.task].starts >= 1 && (r.task in s.running ==> s.tasks[r.task].starts >= 2)
    && (r.success <==> FirstTimeSuccess(s, r.task))
  }

  ghost predicate ReportsOk(s: State) {
    && (forall i :: 0 <= i < |s.reports| ==> ReportOk(s, s.reports[i]))
    && (forall i, j :: 0 <= i < j < |s.reports| ==> s.reports[i].task != s.reports[j].task)
  }

  // ----- reports made before -----

  lemma {:induction false} CompletedNow(s: State, e: Event, t: TaskId)
    requires Inv(s) && Enabled(s, e) && t in s.tasks && t in Next(s, e).tasks
    requires Next(s, e).tasks[t].status == COMPLETED && s.tasks[t].status != COMPLETED
    ensures t in s.running && e.Finish? && Next(s, e).tasks[t].starts == s.tasks[t].starts
  {
    EveryTaskGoesOn(s, e, t);
    if Holds(s.workers[e.w], t) {
      assert Placed(s, t);
      SomeHolder(s, e.w, t);
    } else {
      OtherHeldKept(s, e, t);
    }
  }

  lemma {:induction false} SuccessKept(s: State, e: Event, t: TaskId)
    requires Inv(s) && Enabled(s, e) && t in s.tasks
    requires s.tasks[t].starts >= 1 && (t in s.running ==> s.tasks[t].starts >= 2)
    ensures FirstTimeSuccess(s, t) <==> FirstTimeSuccess(Next(s, e), t)
  {
    EveryTaskGoesOn(s, e, t);
    if s.tasks[t].status == COMPLETED {
      FinalKept(s, e, t);
    } else if Next(s, e).tasks[t].status == COMPLETED {
      CompletedNow(s, e, t);
    }
  }

  lemma {:induction false} ReportOkKept(s: State, e: Event, r: CallbackReport)
    requires Inv(s) && Enabled(s, e) && ReportOk(s, r)
    ensures ReportOk(Next(s, e), r)
  {
    EveryTaskGoesOn(s, e, r.task);
    SuccessKept(s, e, r.task);
  }

  // ----- the report of a step -----

  /** A worker that holds a task goes on. */
  predicate HolderMoves(s: State, e: Event) {
    LetsGo(e) && e.w in s.workers && (s.workers[e.w].pc.Running? || s.workers[e.w].pc.Backoff?)
  }

  /** A worker that holds `t` moves: it goes into backoff, or lets go of `t` and fires the callback if it is there. */
  ghost predicate Fires(s: State, s': State, t: TaskId)
    requires t in s.tasks && t in s'.tasks
  {
    var x, y := s.tasks[t], s'.tasks[t];
    if s'.reports == s.reports then y.callback == x.callback && (x.callback == NoCallback || y.status == PENDING)
    else
      && x.callback != NoCallback && y.callback == NoCallback && t !in s'.running
      && s'.reports == s.reports + [CallbackReport(t, y.status == COMPLETED, y.retryCount)]
      && y.starts == x.starts && y.retryCount == x.retryCount
  }

  lemma {:induction false} FiresByFinish(s: State, w: WorkerId, outcome: Outcome)
    requires Enabled(s, Finish(w, outcome))
    ensures Fires(s, FinishStep(s, w, outcome), s.workers[w].pc.task)
  {
  }

  lemma {:induction false} FiresByBackoffEnd(s: State, e: Event)
    requires Enabled(s, e) && (e.Deliver? || e.Requeue?) && s.workers[e.w].pc.Backoff?
    ensures Fires(s, Next(s, e), s.workers[e.w].pc.task)
    ensures Next(s, e).tasks[s.workers[e.w].pc.task].status == s.tasks[s.workers[e.w].pc.task].status
  {
  }

  lemma {:induction false} NoneFires(s: State, e: Event)
    requires Enabled(s, e) && !HolderMoves(s, e)
    ensures Next(s, e).reports == s.reports
  {
  }

  lemma {:induction false} CallbackAside(s: State, e: Event, t: TaskId)
    requires Enabled(s, e) && !HolderMoves(s, e) && t in s.tasks
    ensures t in Next(s, e).tasks && Next(s, e).tasks[t].callback == s.tasks[t].callback
  {
    EveryTaskGoesOn(s, e, t);
  }

  lemma {:induction false} HolderFires(s: State, e: Event)
    requires Enabled(s, e) && HolderMoves(s, e)
    ensures s.workers[e.w].pc.task in Next(s, e).tasks && Fires(s, Next(s, e), s.workers[e.w].pc.task)
  {
    if e.Finish? {
      FiresByFinish(s, e.w, e.outcome);
    } else {
      FiresByBackoffEnd(s, e);
    }
  }

  lemma {:induction false} NewReportOk(s: State, e: Event, t: TaskId)
    requires Enabled(s, e) && HolderMoves(s, e) && t == s.workers[e.w].pc.task
    requires Consistent(s, t) && Next(s, e).reports != s.reports
    ensures Unreported(s, t) && Next(s, e).reports[..|s.reports|] == s.reports
    ensures |Next(s, e).reports| == |s.reports| + 1 && Next(s, e).reports[|s.reports|].task == t
    ensures ReportOk(Next(s, e), Next(s, e).reports[|s.reports|])
  {
    HolderFires(s, e);
    assert HeldOk(s.workers[e.w].pc, s.tasks[t]);
    if s.workers[e.w].pc.Backoff? {
      FiresByBackoffEnd(s, e);
    }
  }

  lemma {:induction false} ReportsExtended(s: State, s': State)
    requires ReportsOk(s) && |s'.reports| == |s.reports| + 1 && s'.reports[..|s.reports|] == s.reports
    requires forall i :: 0 <= i < |s.reports| ==> ReportOk(s', s.reports[i])
    requires ReportOk(s', s'.reports[|s.reports|]) && Unreported(s, s'.reports[|s.reports|].task)
    ensures ReportsOk(s')
  {
    forall i | 0 <= i < |s'.reports| ensures ReportOk(s', s'.reports[i]) {
      if i < |s.reports| {
        assert s'.reports[i] == s.reports[i];
      }
    }
  }

  lemma {:induction false} ReportsOkKept(s: State, e: Event)
    requires Inv(s) && ReportsOk(s) && Enabled(s, e)
    ensures ReportsOk(Next(s, e))
  {
    var s' := Next(s, e);
    forall i | 0 <= i < |s.reports| ensures ReportOk(s', s.reports[i]) {
      ReportOkKept(s, e, s.reports[i]);
    }
    if !HolderMoves(s, e) {
      NoneFires(s, e);
    } else if s'.reports != s.reports {
      NewReportOk(s, e, s.workers[e.w].pc.task);
      ReportsExtended(s, s');
    }
  }

  // ----- from the submission on -----

  /** Of a task that was submitted with the callback `cb`. */
  ghost predicate CallbackDue(s: State, t: TaskId, cb: Callback) {
    t in s.tasks &&
    if s.tasks[t].callback != NoCallback then s.tasks[t].callback == cb
    else Reported(s, t) <==> cb != NoCallback
  }

  lemma {:induction false} ReportedMore(s: State, s': State, r: CallbackReport, t: TaskId)
    requires s'.reports == s.reports + [r]
    ensures Reported(s', t) <==> Reported(s, t) || r.task == t
  {
    assert s'.reports[|s.reports|] == r;
    if Reported(s, t) {
      var i :| 0 <= i < |s.reports| && s.reports[i].task == t;
      assert s'.reports[i].task == t;
    }
  }

  lemma {:induction false} DueByHolder(s: State, e: Event, t: TaskId, cb: Callback)
    requires Enabled(s, e) && HolderMoves(s, e)
    requires CallbackDue(s, t, cb)
    ensures CallbackDue(Next(s, e), t, cb)
  {
    var s', id := Next(s, e), s.workers[e.w].pc.task;
    EveryTaskGoesOn(s, e, t);
    HolderFires(s, e);
    if t != id {
      OtherHeldKept(s, e, t);
    }
    if s'.reports != s.reports {
      ReportedMore(s, s', CallbackReport(id, s'.tasks[id].status == COMPLETED, s'.tasks[id].retryCount), t);
    }
  }

  lemma {:induction false} DueKept(s: State, e: Event, t: TaskId, cb: Callback)
    requires CallbackDue(s, t, cb) && Enabled(s, e)
    ensures CallbackDue(Next(s, e), t, cb)
  {
    if HolderMoves(s, e) {
      DueByHolder(s, e, t, cb);
    } else {
      NoneFires(s, e);
      CallbackAside(s, e, t);
    }
  }

  lemma {:induction false} CallbacksAlong(s: State, es: seq<Event>, s': State, t: TaskId, cb: Callback)
    requires Inv(s) && ReportsOk(s) && CallbackDue(s, t, cb) && Run(s, es, s')
    ensures Inv(s') && ReportsOk(s') && CallbackDue(s', t, cb)
    decreases |es|
  {
    if es != [] {
      InvKept(s, es[0]);
      ReportsOkKept(s, es[0]);
      DueKept(s, es[0], t, cb);
      CallbacksAlong(Next(s, es[0]), es[1..], s', t, cb);
    }
  }

  lemma {:induction false} ReportsOkAlong(s: State, es: seq<Event>, s': State)
    requires Inv(s) && ReportsOk(s) && Run(s, es, s')
    ensures Inv(s') && ReportsOk(s')
    decreases |es|
  {
    if es != [] {
      InvKept(s, es[0]);
      ReportsOkKept(s, es[0]);
      ReportsOkAlong(Next(s, es[0]), es[1..], s');
    }
  }

  lemma {:induction false} DueAtBirth(s: State, e: Event)
    requires Inv(s) && e.Submit? && Enabled(s, e)
    ensures CallbackDue(Next(s, e), e.id, e.callback)
  {
    assert Next(s, e).reports == s.reports;
  }

  /** A pending callback belongs to a task that was never begun, or whose first attempt is not let go of. */
  lemma {:induction false} PendingCallback(s: State, t: TaskId)
    requires Inv(s) && t in s.tasks && s.tasks[t].callback != NoCallback
    ensures !Reported(s, t) && s.tasks[t].starts <= 1 && (s.tasks[t].starts == 1 ==> t in s.running)
  {
    assert Placed(s, t) && Consistent(s, t);
    if HoldCount(s, t) == 1 {
      Singleton(Holders(s, t));
      var w :| w in Holders(s, t);
      assert HeldOk(s.workers[w].pc, s.tasks[t]);
    }
  }

  /**
   After `submit` with the callback `cb`, whatever happens: the callback has fired exactly when there is one and the
   first attempt has been let go of, also when a retry follows. It fires once, and is told of a success exactly when
   the first attempt completed the task.
   */
  lemma {:induction false} CallbackFiresAfterFirstAttempt(
    maxsize: int, maxWorkers: nat, before: seq<Event>, mid: State, e: Event, after: seq<Event>, s: State)
    requires Run(Init(maxsize, maxWorkers), before, mid) && e.Submit? && Enabled(mid, e) && Run(Next(mid, e), after, s)
    ensures e.id in s.tasks
    ensures Reported(s, e.id) <==>
            e.callback != NoCallback && s.tasks[e.id].starts >= 1 && (s.tasks[e.id].starts == 1 ==> e.id !in s.running)
    ensures forall i, j :: 0 <= i < j < |s.reports| ==> s.reports[i].task != s.reports[j].task
    ensures forall i :: 0 <= i < |s.reports| && s.reports[i].task == e.id ==>
              (s.reports[i].success <==> FirstTimeSuccess(s, e.id))
  {
    InitInv(maxsize, maxWorkers);
    ReportsOkAlong(Init(maxsize, maxWorkers), before, mid);
    InvKept(mid, e);
    ReportsOkKept(mid, e);
    DueAtBirth(mid, e);
    CallbacksAlong(Next(mid, e), after, s, e.id, e.callback);
    if s.tasks[e.id].callback != NoCallback {
      PendingCallback(s, e.id);
    }
  }
}
