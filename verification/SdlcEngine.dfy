/** Reading a review's verdict out of its text. */
module ReviewText {
  import opened Options
  import opened TextMatch

  const KEYWORDS := ["pass", "retry", "block"]

  function SkipSpace(a: Alphabet, s: string, i: nat): (j: nat)
    requires i <= |s|
    ensures i <= j <= |s|
    decreases |s| - i
  {
    if i < |s| && a.space(s[i]) then SkipSpace(a, s, i + 1) else i
  }

  function KeywordAt(low: string, i: nat): Option<string> {
    if OccursAt(low, KEYWORDS[0], i) then Some(KEYWORDS[0])
    else if OccursAt(low, KEYWORDS[1], i) then Some(KEYWORDS[1])
    else if OccursAt(low, KEYWORDS[2], i) then Some(KEYWORDS[2]) else None
  }

  /** The verdict of a `Status:` that begins at `i`, in text already lowered. */
  function StatusAt(a: Alphabet, low: string, i: nat): Option<string> {
    if OccursAt(low, "status:", i) then KeywordAt(low, SkipSpace(a, low, i + 7)) else None
  }

  /** The leftmost one from `i` on. */
  function FirstStatus(a: Alphabet, low: string, i: nat): Option<string>
    requires i <= |low|
    decreases |low| - i
  {
    if StatusAt(a, low, i).Some? then StatusAt(a, low, i)
    else if i < |low| then FirstStatus(a, low, i + 1) else None
  }

  function ExtractStatus(a: Alphabet, review: string): (status: string)
    ensures status in KEYWORDS
  {
    var low := Lower(a, review);
    StatusIsKeyword(a, low, 0);
    var found := FirstStatus(a, low, 0);
    if found.Some? then found.value
    else if Contains(low, "block") then "block"
    else if Contains(low, "retry") || Contains(low, "fail") || Contains(low, "issue") || Contains(low, "concern") then "retry"
    else "pass"
  }

  lemma {:induction false} StatusIsKeyword(a: Alphabet, low: string, i: nat)
    requires i <= |low|
    ensures FirstStatus(a, low, i).Some? ==> FirstStatus(a, low, i).value in KEYWORDS
    decreases |low| - i
  {
    if StatusAt(a, low, i).None? && i < |low| {
      StatusIsKeyword(a, low, i + 1);
    }
  }

  /** Lowercase letters and ASCII punctuation lower to themselves, `S` to `s`, and only blanks are blank. */
  ghost predicate Ascii(a: Alphabet) {
    && a.lower('S') == 's' && a.space(' ') && a.lower(' ') == ' ' && a.lower(':') == ':'
    && forall c :: 'a' <= c <= 'z' ==> a.lower(c) == c && !a.space(c)
  }

  /** A verdict rendered with its status first is read back, whatever follows. */
  lemma {:induction false} RenderedStatusIsRead(a: Alphabet, status: string, rest: string)
    requires Ascii(a) && status in KEYWORDS
    ensures ExtractStatus(a, "Status: " + status + rest) == status
  {
    var low := Lower(a, "Status: " + status + rest);
    LowerJoins(a, "Status: " + status, rest);
    LowerJoins(a, "Status: ", status);
    assert Lower(a, "Status: ") == "status: ";
    assert Lower(a, status) == status;
    assert low == "status: " + status + Lower(a, rest);
    assert low[0..7] == "status:";
    assert low[7] == ' ' && low[8] == status[0];
    assert SkipSpace(a, low, 8) == 8;
    assert low[8..8 + |status|] == status;
    assert low[8..8 + 4] == low[8..][..4];
    KeywordHere(low, status, 8);
    assert StatusAt(a, low, 0) == Some(status);
  }

  /** At `i` stands `status:`, then blanks up to `j`, then one of the three verdicts. */
  ghost predicate NamesStatus(a: Alphabet, low: string, i: nat, j: nat, w: string) {
    && i + 7 <= j <= |low| && low[i..i + 7] == "status:" && (forall k :: i + 7 <= k < j ==> a.space(low[k]))
    && (w == "pass" || w == "retry" || w == "block") && j + |w| <= |low| && low[j..j + |w|] == w
  }

  lemma {:induction false} SkipSpaceStops(a: Alphabet, s: string, i: nat)
    requires i <= |s|
    ensures var j := SkipSpace(a, s, i);
            (forall k :: i <= k < j ==> a.space(s[k])) && (j < |s| ==> !a.space(s[j]))
    decreases |s| - i
  {
    if i < |s| && a.space(s[i]) {
      SkipSpaceStops(a, s, i + 1);
    }
  }

  lemma {:induction false} StatusAtNames(a: Alphabet, low: string, i: nat)
    requires StatusAt(a, low, i).Some?
    ensures exists j :: NamesStatus(a, low, i, j, StatusAt(a, low, i).value)
  {
    SkipSpaceStops(a, low, i + 7);
    assert NamesStatus(a, low, i, SkipSpace(a, low, i + 7), StatusAt(a, low, i).value);
  }

  lemma {:induction false} NamedIsStatusAt(a: Alphabet, low: string, i: nat, j: nat, w: string)
    requires Ascii(a) && NamesStatus(a, low, i, j, w)
    ensures StatusAt(a, low, i) == Some(w)
  {
    SkipSpaceStops(a, low, i + 7);
    assert low[j] == low[j..j + |w|][0] == w[0];
    assert !a.space(low[j]);
    assert SkipSpace(a, low, i + 7) == j;
    KeywordHere(low, w, j);
  }

  lemma {:induction false} FirstStatusIsFirst(a: Alphabet, low: string, from: nat, i: nat)
    requires from <= i <= |low| && (forall k :: from <= k < i ==> StatusAt(a, low, k).None?)
    requires StatusAt(a, low, i).Some? || i == |low|
    ensures FirstStatus(a, low, from) == StatusAt(a, low, i)
    decreases i - from
  {
    if from < i {
      FirstStatusIsFirst(a, low, from + 1, i);
    }
  }

  /** The leftmost status line that names a verdict decides. */
  lemma {:induction false} FirstNamedStatusDecides(a: Alphabet, review: string, i: nat, j: nat, w: string)
    requires Ascii(a) && NamesStatus(a, Lower(a, review), i, j, w)
    requires forall h, k, v :: 0 <= h < i && 0 <= k ==> !NamesStatus(a, Lower(a, review), h, k, v)
    ensures ExtractStatus(a, review) == w
  {
    var low := Lower(a, review);
    NamedIsStatusAt(a, low, i, j, w);
    forall h: nat | h < i ensures StatusAt(a, low, h).None? {
      if StatusAt(a, low, h).Some? {
        StatusAtNames(a, low, h);
      }
    }
    FirstStatusIsFirst(a, low, 0, i);
  }

  /** Without one, a block is a block, any sign of trouble asks for a retry, and everything else passes. */
  lemma {:induction false} WithoutStatus(a: Alphabet, review: string)
    requires forall h, k, v :: 0 <= h && 0 <= k ==> !NamesStatus(a, Lower(a, review), h, k, v)
    ensures var low, status := Lower(a, review), ExtractStatus(a, review);
            && (status == "block" <==> Contains(low, "block"))
            && (status == "pass" <==>
                  !Contains(low, "block") && !Contains(low, "retry") && !Contains(low, "fail") &&
                  !Contains(low, "issue") && !Contains(low, "concern"))
            && (status == "block" || status == "retry" || status == "pass")
  {
    var low := Lower(a, review);
    forall h: nat | h <= |low| ensures StatusAt(a, low, h).None? {
      if StatusAt(a, low, h).Some? {
        StatusAtNames(a, low, h);
      }
    }
    FirstStatusIsFirst(a, low, 0, |low|);
  }

  lemma {:induction false} KeywordHere(low: string, status: string, i: nat)
    requires status in KEYWORDS && OccursAt(low, status, i)
    ensures KeywordAt(low, i) == Some(status)
  {
    assert low[i] == status[0];
    forall w | w in KEYWORDS && OccursAt(low, w, i) ensures w[0] == low[i] {
      assert low[i..i + |w|][0] == low[i];
    }
  }
}

/** The cycle driver: one item up the phase ladder per cycle, and a bounded campaign of cycles. */
module SdlcEngine {
  import opened Options
  import opened SdlcPhase
  import opened PhaseGates
  import opened WorkflowDecisions
  import opened ReviewText
  import opened TextMatch

  /** The transitions of a cycle are the first rungs of the ladder from planning to operation. */
  ghost predicate OnLadder(history: seq<Entry>) {
    |history| <= 5 &&
    forall i :: 0 <= i < |history| ==> history[i].fromPhase == PHASE_ORDER[i] && history[i].toPhase == PHASE_ORDER[i + 1]
  }

  ghost predicate Fresh(item: WorkItem)
    reads item
  {
    item.phase == PLAN && item.history == []
  }

  /** The item has climbed its ladder to where it stands. */
  ghost predicate Climbed(item: WorkItem)
    reads item
  {
    OnLadder(item.history) && item.phase == PHASE_ORDER[|item.history|]
  }

  datatype CycleEnd = Delivered | NoWork | Failed | Raised

  datatype ReviewEnd = Approved(artifact: string) | Rejected | Interrupted

  datatype StopReason = ShutdownSeen | MaxCyclesReached | RetryStopped

  /** What was done in one cycle: calls of the builder, and reviews that came back. */
  datatype Work = Work(builds: nat, reviews: nat)

  function BuildBudget(maxRetries: int): nat {
    if maxRetries < 1 then 1 else maxRetries
  }

  class Engine {
    const controller: PhaseController
    const maxCycles: int
    const maxRetries: int
    const alphabet: Alphabet
    /** Whether the state file and the event log can be written. */
    const storageWorks: bool
    /** What the calls of agents and external services come to, one after another: an answer, or None where one raises. */
    const answers: nat -> Option<string>
    var asked: nat
    var cycle: nat
    var completed: nat
    var failed: nat

    ghost predicate Valid()
      reads controller
    {
      controller.gates == [] && (storageWorks ==> controller.logWorks)
    }

    constructor (c: PhaseController, cycles: int, retries: int, a: Alphabet, works: bool, script: nat -> Option<string>)
      requires c.gates == [] && (works ==> c.logWorks)
      ensures Valid() && cycle == completed == failed == 0 && maxCycles == cycles && maxRetries == retries
      ensures storageWorks == works && controller == c && answers == script && asked == 0
    {
      controller, maxCycles, maxRetries, alphabet, storageWorks := c, cycles, retries, a, works;
      answers, asked, cycle, completed, failed := script, 0, 0, 0, 0;
    }

    /** A write of the state file, which may raise when storage does not work. */
    method Save() returns (ok: bool)
      ensures storageWorks ==> ok
    {
      var fails: bool := *;
      ok := storageWorks || !fails;
    }

    /** A call of an agent or an external service. */
    method Ask() returns (answer: Option<string>)
      modifies `asked
      ensures answer == answers(old(asked)) && asked == old(asked) + 1
    {
      answer := answers(asked);
      asked := asked + 1;
    }

    /** One transition without gates: it happens, or the call raises, which working storage rules out on the next rung. */
    method Climb(item: WorkItem, target: Phase, reason: string, force: bool) returns (ok: bool)
      requires Valid()
      modifies item`phase, item`history, controller`log
      ensures ok ==> item.phase == target && (force || target in Allowed(old(item.phase)))
      ensures item.phase == target || (item.phase == old(item.phase) && item.history == old(item.history))
      ensures old(Climbed(item)) && Index(target) == Index(old(item.phase)) + 1 ==> Climbed(item) && (storageWorks ==> ok)
    {
      var r := controller.AdvanceTo(item, target, reason, force);
      ok := r.Report?;
    }

    /** The `k`-th review of a loop that begins with call `from`, and the build before it; they alternate. */
    function ReviewAt(from: nat, k: nat): Option<string> {
      answers(from + 2 * k)
    }

    function RebuildAt(from: nat, k: nat): Option<string>
      requires k > 0
    {
      answers(from + 2 * k - 1)
    }

    function Verdict(from: nat, k: nat): string
      requires ReviewAt(from, k).Some?
    {
      ExtractStatus(alphabet, ReviewAt(from, k).value)
    }

    predicate AsksRework(from: nat, k: nat) {
      ReviewAt(from, k).Some? && Verdict(from, k) != "pass" && Verdict(from, k) != "block"
    }

    /** Reviews `0` to `n - 1` came back, and all but the last asked for rework. */
    ghost predicate Reviewed(from: nat, n: nat) {
      && (n > 0 ==> ReviewAt(from, n - 1).Some?)
      && (forall k: nat {:trigger AsksRework(from, k)} :: k < n - 1 ==> AsksRework(from, k))
    }

    lemma ReviewedMore(from: nat, n: nat)
      requires n >= 1 && Reviewed(from, n) && AsksRework(from, n - 1) && ReviewAt(from, n).Some?
      ensures Reviewed(from, n + 1)
    {
    }

    /** The last call that was made raised. */
    ghost predicate LastRaised()
      reads this
    {
      asked > 0 && answers(asked - 1).None?
    }

    /** How a cycle ends, by the verdicts of its reviews, which begin with call `from`. */
    ghost predicate Judged(from: nat, end: CycleEnd, work: Work) {
      work.reviews > 0 ==>
        && Reviewed(from, work.reviews)
        && var verdict := Verdict(from, work.reviews - 1);
        && (end.Delivered? ==> verdict == "pass")
        && (end.Failed? ==> verdict == "pass" || verdict == "block" || work.builds >= maxRetries)
    }

    /** What is failed although its last review passed, failed in delivery. */
    ghost predicate FailedInDelivery(from: nat, end: CycleEnd, work: Work)
      reads this
    {
      end.Failed? && work.reviews > 0 && ReviewAt(from, work.reviews - 1).Some? ==>
        Verdict(from, work.reviews - 1) == "pass" ==> LastRaised()
    }

    /** Builds equal reviews in a cycle that does not raise, unless its first build made nothing. */
    ghost predicate BuildsMatch(end: CycleEnd, work: Work) {
      && work.builds <= BuildBudget(maxRetries) && work.reviews <= work.builds <= work.reviews + 1
      && (end.Delivered? ==> work.builds == work.reviews >= 1)
      && (!end.Raised? ==> work.builds == work.reviews || (end.Failed? && work == Work(1, 0)))
    }

    /** With working storage a cycle counts one task at most, and never more than two. */
    twostate predicate Counts(end: CycleEnd)
      reads this
    {
      && (storageWorks ==> completed == old(completed) + if end.Delivered? then 1 else 0)
      && (storageWorks ==> failed == old(failed) + if end.Failed? then 1 else 0)
      && old(completed) <= completed && old(failed) <= failed
      && completed + failed <= old(completed) + old(failed) + 2
    }

    /**
     Review and rework of an artifact. Each further build is reviewed, whether or not it produced anything new, and builds
     stay within the budget. The artifact is approved when the last review passes, and rejected when it blocks, or does not
     pass with the budget used up; earlier reviews did neither. What is approved is the last build that produced anything.
     */
    method ReviewLoop(item: WorkItem, first: string) returns (end: ReviewEnd, work: Work)
      requires Valid() && first != ""
      modifies item`payload, controller`log, `asked
      ensures work.builds <= BuildBudget(maxRetries) && work.reviews <= work.builds <= work.reviews + 1
      ensures Reviewed(old(asked), work.reviews) && (work.builds <= 1 || work.builds <= maxRetries)
      ensures !end.Interrupted? ==> work.builds == work.reviews >= 1 && asked == old(asked) + 2 * work.reviews - 1
      ensures end.Approved? ==> Verdict(old(asked), work.reviews - 1) == "pass"
      ensures end.Rejected? ==> Verdict(old(asked), work.reviews - 1) == "block" ||
                                (Verdict(old(asked), work.reviews - 1) != "pass" && work.builds >= maxRetries)
      ensures end.Interrupted? && storageWorks ==> LastRaised()
      ensures end.Approved? ==> LastBuilt(old(asked), work.builds, first, end.artifact)
    {
      ghost var from := asked;
      var artifact, attempts := first, 1;
      work := Work(1, 0);
      var review := Ask();
      if review.None? {
        return Interrupted, work;
      }
      item.payload := item.payload["review" := review.value];
      work := Work(1, 1);
      assert BuiltAt(from, 0, first, artifact);
      while true
        invariant work == Work(attempts, attempts) && 1 <= attempts <= BuildBudget(maxRetries)
        invariant asked == from + 2 * attempts - 1 && review.Some? && review == ReviewAt(from, attempts - 1)
        invariant Reviewed(from, attempts)
        invariant LastBuilt(from, attempts, first, artifact)
        decreases BuildBudget(maxRetries) - attempts
      {
        var step := Decide(item, review.value, attempts, from);
        if step.None? {
          return Interrupted, work;
        }
        if step.value == Stop {
          return Approved(artifact), work;
        }
        if step.value == CriticStop {
          return Rejected, work;
        }
        work := work.(builds := work.builds + 1);
        review, artifact := Rework(item, artifact, from, attempts, first);
        if review.None? {
          return Interrupted, work;
        }
        ReviewedMore(from, attempts);
        attempts := attempts + 1;
        work := work.(reviews := work.reviews + 1);
      }
    }

    /** What the review asks for; None where logging the decision raises. */
    method Decide(item: WorkItem, review: string, attempts: nat, ghost from: nat) returns (step: Option<NextStep>)
      requires Valid() && attempts >= 1 && ReviewAt(from, attempts - 1) == Some(review)
      modifies controller`log
      ensures storageWorks ==> step.Some?
      ensures step == Some(Stop) ==> Verdict(from, attempts - 1) == "pass"
      ensures step == Some(CriticStop) ==> Verdict(from, attempts - 1) == "block" ||
                                           (Verdict(from, attempts - 1) != "pass" && attempts >= maxRetries)
      ensures step.Some? && step != Some(Stop) && step != Some(CriticStop) ==>
                AsksRework(from, attempts - 1) && attempts < maxRetries
    {
      step := controller.DecideRework(item, attempts, ExtractStatus(alphabet, review), maxRetries);
    }

    /** One more build and its review, None where one of them raises. */
    method Rework(item: WorkItem, artifact0: string, ghost from: nat, ghost n: nat, ghost first: string)
      returns (review: Option<string>, artifact: string)
      requires n >= 1 && asked == from + 2 * n - 1 && LastBuilt(from, n, first, artifact0)
      modifies item`payload, `asked
      ensures review.None? ==> LastRaised()
      ensures review.Some? ==> asked == from + 2 * n + 1 && review == ReviewAt(from, n)
      ensures review.Some? ==> LastBuilt(from, n + 1, first, artifact)
    {
      artifact := artifact0;
      var rebuilt := Ask();
      if rebuilt.None? {
        return None, artifact;
      }
      OneMoreBuild(from, n, first, artifact0, rebuilt.value);
      if rebuilt.value != "" {
        artifact := rebuilt.value;
        item.payload := item.payload["artifact" := artifact];
      }
      review := Ask();
      if review.Some? {
        item.payload := item.payload["review" := review.value];
      }
    }

    predicate Useless(from: nat, k: nat) {
      k > 0 && RebuildAt(from, k) == Some("")
    }

    ghost predicate BuiltAt(from: nat, b: nat, first: string, artifact: string) {
      artifact != "" && if b == 0 then artifact == first else RebuildAt(from, b) == Some(artifact)
    }

    /** Of the first `n` builds, `artifact` is what the last one that produced anything made; `first` is the first. */
    ghost predicate LastBuilt(from: nat, n: nat, first: string, artifact: string) {
      exists b: nat {:trigger BuiltAt(from, b, first, artifact)} :: b < n && BuiltAt(from, b, first, artifact) &&
        forall k: nat {:trigger Useless(from, k)} :: b < k < n ==> Useless(from, k)
    }

    lemma OneMoreBuild(from: nat, n: nat, first: string, artifact: string, rebuilt: string)
      requires n >= 1 && LastBuilt(from, n, first, artifact) && RebuildAt(from, n) == Some(rebuilt)
      ensures LastBuilt(from, n + 1, first, if rebuilt == "" then artifact else rebuilt)
    {
      if rebuilt != "" {
        assert BuiltAt(from, n, first, rebuilt);
      } else {
        var b: nat :| b < n && BuiltAt(from, b, first, artifact) && forall k: nat {:trigger Useless(from, k)} :: b < k < n ==> Useless(from, k);
        assert Useless(from, n);
      }
    }

    /**
     One cycle on the item that the store holds for the selected task. The first call is discovery and planning, "" for
     nothing to do; the second is the first build; then the review loop begins. From a fresh item the transitions are a
     prefix of the ladder, all of it exactly when the work is delivered, and work is delivered only after its last review
     passed. A cycle fails when its build made nothing, the review rejects it, or delivering reviewed work fails. Builds
     equal reviews in a cycle that does not raise, unless its first build made nothing. With working storage one cycle counts
     one task at most, and raises only where a call does.
     */
    method RunCycle(item: WorkItem) returns (end: CycleEnd, work: Work)
      requires Valid()
      modifies `cycle, `completed, `failed, `asked, item, controller`log
      ensures cycle == old(cycle) + 1
      ensures end.NoWork? <==> answers(old(asked)) == Some("")
      ensures end.Failed? && work.reviews == 0 ==> work.builds == 1 && answers(old(asked) + 1) == Some("")
      ensures Judged(old(asked) + 2, end, work) && BuildsMatch(end, work) && Counts(end)
      ensures storageWorks && old(Fresh(item)) ==> (end.Raised? ==> LastRaised()) && FailedInDelivery(old(asked) + 2, end, work)
      ensures old(Fresh(item)) ==> Climbed(item)
      ensures storageWorks && old(Fresh(item)) ==> (end.Delivered? <==> item.phase == OPERATE)
    {
      cycle := cycle + 1;
      work := Work(0, 0);
      var selected := Ask();
      if selected.None? {
        return Raised, work;
      }
      if selected.value == "" {
        return NoWork, work;
      }
      var ok := Save();
      if !ok {
        return Raised, work;
      }
      item.payload := item.payload["task" := selected.value];
      var adr: bool := *;
      ok := Climb(item, ARCHITECT, "ADR", !adr);
      if !ok {
        return Raised, work;
      }
      end, work := BuildAndDeliver(item);
    }

    /** The rest of the cycle, from the architecture on. */
    method BuildAndDeliver(item: WorkItem) returns (end: CycleEnd, work: Work)
      requires Valid() && item.phase == ARCHITECT
      modifies `completed, `failed, `asked, item, controller`log
      ensures !end.NoWork?
      ensures end.Failed? && work.reviews == 0 ==> work.builds == 1 && answers(old(asked)) == Some("")
      ensures Judged(old(asked) + 1, end, work) && BuildsMatch(end, work) && Counts(end)
      ensures storageWorks && old(Climbed(item)) ==> (end.Raised? ==> LastRaised()) && FailedInDelivery(old(asked) + 1, end, work)
      ensures old(Climbed(item)) ==> Climbed(item)
      ensures storageWorks && old(Climbed(item)) ==> (end.Delivered? <==> item.phase == OPERATE)
    {
      work := Work(1, 0);
      var artifact := Ask();
      if artifact.None? {
        return Raised, work;
      }
      if artifact.value == "" {
        failed := failed + 1;
        var saved := Save();
        return if saved then Failed else Raised, work;
      }
      item.payload := item.payload["artifact" := artifact.value];
      var ok := Climb(item, IMPLEMENT, "builder produced artifact", false);
      if !ok {
        return Raised, work;
      }
      end, work := ReviewAndDeliver(item, artifact.value);
    }

    /** From the first build on. */
    method ReviewAndDeliver(item: WorkItem, first: string) returns (end: CycleEnd, work: Work)
      requires Valid() && item.phase == IMPLEMENT && first != ""
      modifies `completed, `failed, `asked, item, controller`log
      ensures !end.NoWork? && (end.Failed? ==> work.reviews > 0)
      ensures Judged(old(asked), end, work) && BuildsMatch(end, work) && Counts(end)
      ensures storageWorks && old(Climbed(item)) ==> (end.Raised? ==> LastRaised()) && FailedInDelivery(old(asked), end, work)
      ensures old(Climbed(item)) ==> Climbed(item)
      ensures storageWorks && old(Climbed(item)) ==> (end.Delivered? <==> item.phase == OPERATE)
    {
      var verdict;
      verdict, work := ReviewLoop(item, first);
      match verdict {
        case Interrupted =>
          end := Raised;
        case Rejected =>
          failed := failed + 1;
          var ok := Save();
          if ok {
            ok := Save();
          }
          end := if ok then Failed else Raised;
        case Approved(built) =>
          end := GovernAndOperate(item);
      }
    }

    /** Review passed: governance, then delivery. */
    method GovernAndOperate(item: WorkItem) returns (end: CycleEnd)
      requires Valid() && item.phase == IMPLEMENT
      modifies `completed, `failed, `asked, item, controller`log
      ensures !end.NoWork? && old(asked) <= asked
      ensures (end.Failed? || end.Raised?) && storageWorks && old(Climbed(item)) ==> LastRaised()
      ensures old(Climbed(item)) ==> Climbed(item)
      ensures storageWorks && old(Climbed(item)) ==> (end.Delivered? <==> item.phase == OPERATE)
      ensures Counts(end)
    {
      var ok := Climb(item, REVIEW, "review passed", false);
      if !ok {
        return Raised;
      }
      var verdict := Ask();
      if verdict.None? {
        return Raised;
      }
      item.payload := item.payload["governance" := verdict.value];
      ok := Climb(item, GOVERN, "governance gate recorded", false);
      if !ok {
        return Raised;
      }
      end := Deliver(item);
    }

    /** Delivery: whatever fails here is caught and counted, unless counting it cannot be written either. */
    method Deliver(item: WorkItem) returns (end: CycleEnd)
      requires Valid() && item.phase == GOVERN
      modifies `completed, `failed, `asked, item, controller`log
      ensures !end.NoWork? && old(asked) <= asked
      ensures (end.Failed? || end.Raised?) && storageWorks && old(Climbed(item)) ==> LastRaised()
      ensures old(Climbed(item)) ==> Climbed(item)
      ensures storageWorks && old(Climbed(item)) ==> (end.Delivered? <==> item.phase == OPERATE)
      ensures Counts(end)
    {
      var ok := false;
      var url := Ask();
      if url.Some? {
        item.payload := item.payload["pr_url" := url.value];
        ok := Climb(item, OPERATE, "PR opened", false);
        if ok {
          completed := completed + 1;
          ok := Save();
          if ok {
            return Delivered;
          }
        }
      }
      failed := failed + 1;
      ok := Save();
      if ok {
        ok := Save();
      }
      end := if ok then Failed else Raised;
    }

    /**
     The campaign. Unless shutdown is requested it makes exactly `maxCycles` cycles: the retry decision after a failed
     cycle never ends it sooner. With working storage no cycle is counted twice, and without it three times at most.
     */
    method Run() returns (reason: StopReason)
      requires Valid() && maxCycles > 0 && cycle == completed == failed == 0
      modifies this, controller`log
      ensures cycle <= maxCycles && (!reason.ShutdownSeen? ==> cycle == maxCycles)
      ensures storageWorks ==> completed + failed <= cycle
      ensures completed + failed <= 3 * cycle
    {
      while true
        invariant cycle <= maxCycles && (storageWorks ==> completed + failed <= cycle) && completed + failed <= 3 * cycle
        decreases maxCycles - cycle
      {
        var shutdown: bool := *;
        if shutdown {
          return ShutdownSeen;
        }
        if cycle >= maxCycles {
          return MaxCyclesReached;
        }
        var failedBefore := failed;
        var item := StoredItem();
        var end, _ := RunCycle(item);
        if end.Raised? {
          failed := failed + 1;
        }
        if failed > failedBefore {
          var next := AutonomousRetry(cycle, "retry", maxCycles);
          if next == Stop {
            return RetryStopped;
          }
        }
      }
    }

    /** Whatever work item the store holds for a task, or a new one. */
    method StoredItem() returns (item: WorkItem)
      ensures fresh(item)
    {
      var phase: Phase := *;
      var history: seq<Entry> := *;
      item := new WorkItem("task", phase, history);
    }
  }
}
