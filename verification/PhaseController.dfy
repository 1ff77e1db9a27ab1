/** The phases of a work item, the transitions between them, and what a transition history can look like. */
module SdlcPhase {

  datatype Phase = PLAN | ARCHITECT | IMPLEMENT | REVIEW | GOVERN | OPERATE

  /** Forward edges, and one rework edge from review back to implementation. */
  function Allowed(p: Phase): set<Phase> {
    match p
    case PLAN => {ARCHITECT}
    case ARCHITECT => {IMPLEMENT}
    case IMPLEMENT => {REVIEW}
    case REVIEW => {GOVERN, IMPLEMENT}
    case GOVERN => {OPERATE}
    case OPERATE => {}
  }

  const PHASE_ORDER := [PLAN, ARCHITECT, IMPLEMENT, REVIEW, GOVERN, OPERATE]

  /** The position in the phase order. */
  function Index(p: Phase): (i: nat)
    ensures i < |PHASE_ORDER| && PHASE_ORDER[i] == p
  {
    match p
    case PLAN => 0
    case ARCHITECT => 1
    case IMPLEMENT => 2
    case REVIEW => 3
    case GOVERN => 4
    case OPERATE => 5
  }

  datatype Entry = Entry(fromPhase: Phase, toPhase: Phase, reason: string, evidence: seq<string>)

  /** The entries lead from `start` to `phase` without a gap. */
  ghost predicate Chained(history: seq<Entry>, start: Phase, phase: Phase) {
    if history == [] then phase == start
    else
      var last := history[|history| - 1];
      last.toPhase == phase && Chained(history[..|history| - 1], start, last.fromPhase)
  }

  ghost predicate Unforced(history: seq<Entry>) {
    forall i :: 0 <= i < |history| ==> history[i].toPhase in Allowed(history[i].fromPhase)
  }

  function Reworks(history: seq<Entry>): nat {
    if history == [] then 0
    else
      var last := history[|history| - 1];
      Reworks(history[..|history| - 1]) + if last.fromPhase == REVIEW && last.toPhase == IMPLEMENT then 1 else 0
  }

  /** Every rework costs exactly two further transitions. */
  lemma {:induction false} HistoryLength(history: seq<Entry>, phase: Phase)
    requires Chained(history, PLAN, phase) && Unforced(history)
    ensures |history| == Index(phase) + 2 * Reworks(history)
  {
    if history != [] {
      var n := |history| - 1;
      HistoryLength(history[..n], history[n].fromPhase);
    }
  }

  /** Nothing is skipped: a phase reached without force has all earlier ones behind it. */
  lemma {:induction false} EarlierPhasesVisited(history: seq<Entry>, phase: Phase, p: Phase)
    requires Chained(history, PLAN, phase) && Unforced(history) && Index(p) <= Index(phase) && p != PLAN
    ensures exists i :: 0 <= i < |history| && history[i].toPhase == p
  {
    var n := |history| - 1;
    if p == phase {
      assert history[n].toPhase == p;
    } else {
      EarlierPhasesVisited(history[..n], history[n].fromPhase, p);
      var i :| 0 <= i < n && history[..n][i].toPhase == p;
      assert history[i].toPhase == p;
    }
  }

  lemma {:induction false} OneMoreEntry(history: seq<Entry>, start: Phase, phase: Phase, e: Entry)
    requires Chained(history, start, phase) && e.fromPhase == phase
    ensures Chained(history + [e], start, e.toPhase)
    ensures Unforced(history) && e.toPhase in Allowed(phase) ==> Unforced(history + [e])
  {
    assert (history + [e])[..|history|] == history;
  }
}

/** Gated transitions of a work item. */
module PhaseGates {
  import opened Options
  import opened Decimal
  import opened SdlcPhase
  import opened WorkflowDecisions

  datatype GateResult = GateResult(gate: string, passed: bool, blocking: bool, message: string)

  /** What a gate is shown of the item. */
  datatype Snapshot = Snapshot(id: string, phase: Phase, payload: map<string, string>, history: seq<Entry>)

  /** `evaluate` is None where the gate raises; an empty `appliesTo` means all phases. */
  datatype Gate = Gate(name: string, blocking: bool, appliesTo: set<Phase>, evaluate: Snapshot -> Option<GateResult>)

  predicate ShouldRun(g: Gate, target: Phase) {
    g.appliesTo == {} || target in g.appliesTo
  }

  /** A gate that raises counts as failed, blocking if the gate is. */
  function ResultOf(g: Gate, s: Snapshot): GateResult {
    var r := g.evaluate(s);
    if r.Some? then r.value else GateResult(g.name, false, g.blocking, "gate crashed")
  }

  /** The results of all gates for the target, in order. */
  function Results(gates: seq<Gate>, s: Snapshot, target: Phase): seq<GateResult> {
    if gates == [] then []
    else
      var n := |gates| - 1;
      Results(gates[..n], s, target) + if ShouldRun(gates[n], target) then [ResultOf(gates[n], s)] else []
  }

  /** No gate is skipped because an earlier one failed. */
  lemma {:induction false} EveryGateReports(gates: seq<Gate>, s: Snapshot, target: Phase, g: Gate)
    requires g in gates && ShouldRun(g, target)
    ensures ResultOf(g, s) in Results(gates, s, target)
  {
    var n := |gates| - 1;
    if gates[n] != g {
      assert gates == gates[..n] + [gates[n]];
      EveryGateReports(gates[..n], s, target, g);
    }
  }

  /** Which gates the results come from. */
  ghost function ResultsAt(gates: seq<Gate>, s: Snapshot, target: Phase): (at: seq<nat>)
    ensures |at| == |Results(gates, s, target)| && forall i, j :: 0 <= i < j < |at| ==> at[i] < at[j]
    ensures forall i :: 0 <= i < |at| ==> at[i] < |gates| && ResultFrom(gates[at[i]], s, target, Results(gates, s, target)[i])
  {
    if gates == [] then []
    else
      var n := |gates| - 1;
      var before := ResultsAt(gates[..n], s, target);
      if ShouldRun(gates[n], target) then before + [n] else before
  }

  /** Just the gates for the target report, in order; one that raises counts as failed. */
  lemma {:induction false} ResultsFrom(gates: seq<Gate>, s: Snapshot, target: Phase, k: nat)
    requires k < |gates| && (gates[k].appliesTo == {} || target in gates[k].appliesTo)
    ensures exists i :: 0 <= i < |Results(gates, s, target)| && ResultsAt(gates, s, target)[i] == k
  {
    var n := |gates| - 1;
    if k < n {
      ResultsFrom(gates[..n], s, target, k);
      var i :| 0 <= i < |Results(gates[..n], s, target)| && ResultsAt(gates[..n], s, target)[i] == k;
      assert ResultsAt(gates, s, target)[i] == k;
    } else {
      assert ResultsAt(gates, s, target)[|Results(gates, s, target)| - 1] == k;
    }
  }

  ghost predicate ResultFrom(g: Gate, s: Snapshot, target: Phase, r: GateResult) {
    (g.appliesTo == {} || target in g.appliesTo) &&
    match g.evaluate(s)
    case Some(given) => r == given
    case None => r == GateResult(g.name, false, g.blocking, "gate crashed")
  }

  /** Which results the names of the passed gates come from. */
  ghost function PassedAt(rs: seq<GateResult>): (at: seq<nat>)
    ensures |at| == |Passed(rs)| && forall i, j :: 0 <= i < j < |at| ==> at[i] < at[j]
    ensures forall i :: 0 <= i < |at| ==> at[i] < |rs| && rs[at[i]].passed && Passed(rs)[i] == rs[at[i]].gate
  {
    if rs == [] then []
    else
      var n := |rs| - 1;
      var before := PassedAt(rs[..n]);
      if rs[n].passed then before + [n] else before
  }

  /** The evidence of a transition: the names of just the gates that passed, in order. */
  lemma {:induction false} PassedFrom(rs: seq<GateResult>, k: nat)
    requires k < |rs| && rs[k].passed
    ensures exists i :: 0 <= i < |Passed(rs)| && PassedAt(rs)[i] == k
  {
    var n := |rs| - 1;
    if k < n {
      PassedFrom(rs[..n], k);
      var i :| 0 <= i < |Passed(rs[..n])| && PassedAt(rs[..n])[i] == k;
      assert PassedAt(rs)[i] == k;
    } else {
      assert PassedAt(rs)[|Passed(rs)| - 1] == k;
    }
  }

  predicate Blocks(r: GateResult) {
    r.blocking && !r.passed
  }

  predicate Blocked(rs: seq<GateResult>) {
    exists i :: 0 <= i < |rs| && Blocks(rs[i])
  }

  /** A blocking gate that crashes blocks the transition like one that fails. */
  lemma {:induction false} CrashBlocks(gates: seq<Gate>, s: Snapshot, target: Phase, g: Gate)
    requires g in gates && ShouldRun(g, target) && g.blocking && g.evaluate(s).None?
    ensures Blocked(Results(gates, s, target))
  {
    EveryGateReports(gates, s, target, g);
    var i :| 0 <= i < |Results(gates, s, target)| && Results(gates, s, target)[i] == ResultOf(g, s);
    assert Blocks(Results(gates, s, target)[i]);
  }

  function Passed(rs: seq<GateResult>): seq<string> {
    if rs == [] then []
    else Passed(rs[..|rs| - 1]) + if rs[|rs| - 1].passed then [rs[|rs| - 1].gate] else []
  }

  function Blockers(rs: seq<GateResult>): seq<string> {
    if rs == [] then []
    else Blockers(rs[..|rs| - 1]) + if Blocks(rs[|rs| - 1]) then [rs[|rs| - 1].gate] else []
  }

  lemma {:induction false} BlockersIffBlocked(rs: seq<GateResult>)
    ensures Blockers(rs) != [] <==> Blocked(rs)
  {
    if rs != [] {
      var n := |rs| - 1;
      BlockersIffBlocked(rs[..n]);
      if Blocked(rs[..n]) {
        var i :| 0 <= i < n && Blocks(rs[..n][i]);
        assert Blocks(rs[i]);
      }
      if Blocks(rs[n]) {
        assert Blocked(rs);
      } else if Blocked(rs) {
        var i :| 0 <= i < |rs| && Blocks(rs[i]);
        assert Blocks(rs[..n][i]);
      }
    }
  }

  class WorkItem {
    const id: string
    var phase: Phase
    var payload: map<string, string>
    var history: seq<Entry>

    constructor (i: string, p: Phase, h: seq<Entry>)
      ensures id == i && phase == p && history == h && payload == map[]
    {
      id, phase, payload, history := i, p, map[], h;
    }

    function Snap(): Snapshot
      reads this
    {
      Snapshot(id, phase, payload, history)
    }

    method Record(target: Phase, reason: string, evidence: seq<string>)
      modifies `history
      ensures history == old(history) + [Entry(phase, target, reason, evidence)]
    {
      history := history + [Entry(phase, target, reason, evidence)];
    }
  }

  datatype LogEvent = LogEvent(item: string, action: string, fromPhase: Phase, toPhase: Phase, reason: string)

  function AdvanceEvent(item: string, fromPhase: Phase, target: Phase, reason: string, advanced: bool): LogEvent {
    if advanced then LogEvent(item, "phase.transition", fromPhase, target, reason)
    else LogEvent(item, "phase.transition.blocked", fromPhase, target, if reason == "" then "blocked by gate" else reason)
  }

  function DecisionEvent(item: string, phase: Phase, reason: string): LogEvent {
    LogEvent(item, "phase.review.decision", phase, phase, reason)
  }

  /** A report, the error of a transition that is not allowed, or the error of an event log that cannot be written. */
  datatype Advance =
    | Report(fromPhase: Phase, toPhase: Phase, advanced: bool, gates: seq<GateResult>)
    | Disallowed
    | LogFailed

  class PhaseController {
    var gates: seq<Gate>
    var log: seq<LogEvent>
    /** Whether appending to the event log can be relied on. */
    const logWorks: bool

    constructor (works: bool)
      ensures gates == [] && log == [] && logWorks == works
    {
      gates, log, logWorks := [], [], works;
    }

    method Register(g: Gate)
      modifies `gates
      ensures gates == old(gates) + [g]
    {
      gates := gates + [g];
    }

    method Emit(e: LogEvent) returns (ok: bool)
      modifies `log
      ensures log == if ok then old(log) + [e] else old(log)
      ensures logWorks ==> ok
    {
      var fails: bool := *;
      ok := logWorks || !fails;
      if ok {
        log := log + [e];
      }
    }

    method Evaluate(item: WorkItem, target: Phase) returns (results: seq<GateResult>)
      ensures results == Results(gates, item.Snap(), target)
    {
      results := [];
      for i := 0 to |gates|
        invariant results == Results(gates[..i], item.Snap(), target)
      {
        assert gates[..i + 1][..i] == gates[..i];
        if ShouldRun(gates[i], target) {
          var r := gates[i].evaluate(item.Snap());
          if r.Some? {
            results := results + [r.value];
          } else {
            results := results + [GateResult(gates[i].name, false, gates[i].blocking, "gate crashed")];
          }
        }
      }
      assert gates[..|gates|] == gates;
    }

    /**
     The item moves exactly when the move is forced, or allowed with no blocking gate failing or crashing. A refused or
     blocked call leaves it as it was; only a log that fails can make a call raise after the item has moved.
     */
    method AdvanceTo(item: WorkItem, target: Phase, reason: string, force: bool) returns (r: Advance)
      modifies item`phase, item`history, `log
      ensures r.Disallowed? <==> !force && target !in Allowed(old(item.phase))
      ensures force || r.Disallowed? ||
              (old(item.phase), target) in {(PLAN, ARCHITECT), (ARCHITECT, IMPLEMENT), (IMPLEMENT, REVIEW), (REVIEW, GOVERN),
                                            (REVIEW, IMPLEMENT), (GOVERN, OPERATE)}
      ensures r.Disallowed? ==>
                (old(item.phase), target) !in {(PLAN, ARCHITECT), (ARCHITECT, IMPLEMENT), (IMPLEMENT, REVIEW), (REVIEW, GOVERN),
                                               (REVIEW, IMPLEMENT), (GOVERN, OPERATE)}
      ensures !force && !r.Disallowed? ==>
                (item.phase == target <==> forall g :: g in Results(gates, old(item.Snap()), target) ==> g.passed || !g.blocking)
      ensures r.Disallowed? ==> log == old(log)
      ensures var results := Results(gates, old(item.Snap()), target);
              var moves := force || (target in Allowed(old(item.phase)) && !Blocked(results));
              && item.phase == (if moves then target else old(item.phase))
              && item.history == (if moves then old(item.history) + [Entry(old(item.phase), target, reason, Passed(results))]
                                  else old(item.history))
              && (r.Report? ==> r == Report(old(item.phase), item.phase, moves, results))
      ensures r.LogFailed? ==> !logWorks
      ensures r.Report? && r.advanced ==>
                log == old(log) + [LogEvent(item.id, "phase.transition", old(item.phase), target, reason)]
      ensures r.Report? && !r.advanced ==>
                log == old(log) + [LogEvent(item.id, "phase.transition.blocked", old(item.phase), target,
                                            if reason == "" then "blocked by gate" else reason)]
      ensures !force && old(item.phase) == OPERATE ==> r.Disallowed?
      ensures forall start :: old(Chained(item.history, start, item.phase)) ==> Chained(item.history, start, item.phase)
      ensures !force && old(Unforced(item.history)) ==> Unforced(item.history)
    {
      var fromPhase := item.phase;
      if !force && target !in Allowed(fromPhase) {
        return Disallowed;
      }
      var results := Evaluate(item, target);
      BlockersIffBlocked(results);
      if Blockers(results) != [] && !force {
        var ok := Emit(AdvanceEvent(item.id, fromPhase, target, reason, false));
        return if ok then Report(fromPhase, fromPhase, false, results) else LogFailed;
      }
      ghost var before := item.history;
      item.Record(target, reason, Passed(results));
      item.phase := target;
      forall start | Chained(before, start, fromPhase) ensures Chained(item.history, start, target) {
        OneMoreEntry(before, start, fromPhase, Entry(fromPhase, target, reason, Passed(results)));
      }
      var ok := Emit(AdvanceEvent(item.id, fromPhase, target, reason, true));
      r := if ok then Report(fromPhase, target, true, results) else LogFailed;
    }

    /** The review decision, logged; None where logging raises. */
    method DecideRework(item: WorkItem, builderAttempts: nat, status: string, maxRetries: int) returns (step: Option<NextStep>)
      modifies `log
      ensures step.Some? ==> step.value == ReviewRework(builderAttempts, status, maxRetries)
      ensures step.Some? ==>
                && (step.value == Stop <==> status == "pass")
                && (step.value == Builder <==> status != "pass" && status != "block" && builderAttempts < maxRetries)
                && (step.value == Stop || step.value == Builder || step.value == CriticStop)
      ensures step.None? ==> log == old(log)
      ensures step.Some? ==>
                log == old(log) + [LogEvent(item.id, "phase.review.decision", item.phase, item.phase,
                  if status == "pass" then "review passed"
                  else if status == "block" then "review blocked by critic; rework not permitted"
                  else if step.value == Builder then "bounded retry (" + Str(builderAttempts) + "/" + Str(maxRetries) + ")"
                  else "retry budget exhausted after " + Str(builderAttempts) + " attempt(s)")]
      ensures logWorks ==> step.Some?
    {
      var decision := ReviewRework(builderAttempts, status, maxRetries);
      var ok := Emit(DecisionEvent(item.id, item.phase, ReviewReason(builderAttempts, status, maxRetries)));
      step := if ok then Some(decision) else None;
    }
  }
}

/** The decision rules of the review loop and of the campaign. */
module WorkflowDecisions {
  import opened Decimal

  datatype NextStep = Stop | Builder | CriticStop | Retry

  function ReviewRework(builderAttempts: nat, status: string, maxRetries: int): NextStep {
    if status == "pass" then Stop
    else if status == "block" then CriticStop
    else if builderAttempts < maxRetries then Builder else CriticStop
  }

  function ReviewReason(builderAttempts: nat, status: string, maxRetries: int): string {
    if status == "pass" then "review passed"
    else if status == "block" then "review blocked by critic; rework not permitted"
    else if builderAttempts < maxRetries then "bounded retry (" + Str(builderAttempts) + "/" + Str(maxRetries) + ")"
    else "retry budget exhausted after " + Str(builderAttempts) + " attempt(s)"
  }

  /** A campaign goes on just after anything but a success or a request to stop, while cycles are left. */
  lemma {:induction false} AutonomousRetryGoesOn(cycleAttempts: nat, lastStatus: string, maxCycles: int)
    ensures AutonomousRetry(cycleAttempts, lastStatus, maxCycles) == Retry <==>
            lastStatus != "success" && lastStatus != "stop" && cycleAttempts < maxCycles
    ensures AutonomousRetry(cycleAttempts, lastStatus, maxCycles) != Retry ==>
              AutonomousRetry(cycleAttempts, lastStatus, maxCycles) == Stop
  {
  }

  function AutonomousRetry(cycleAttempts: nat, lastStatus: string, maxCycles: int): NextStep {
    if lastStatus == "success" || lastStatus == "stop" then Stop
    else if cycleAttempts < maxCycles then Retry else Stop
  }
}
