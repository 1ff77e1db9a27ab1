/** Planning by keyword, and growing a plan from reflection gaps. */
module BlueprintPlanner {
  import opened Workflow
  import opened Graphs
  import opened TextMatch
  import opened Decimal

  datatype Row = Row(action: string, agent: string, output: string, deps: seq<string>)

  datatype Entry = Entry(keyword: string, rows: seq<Row>)

  const AUTH := [
    Row("design", "Architect", "auth design doc", []),
    Row("implement", "Builder", "auth module", ["design"]),
    Row("review", "Critic", "review verdict", ["implement"])]

  const REFACTOR := [
    Row("analyze", "RefactorAgent", "refactor blueprint", []),
    Row("implement", "Builder", "refactored code", ["analyze"]),
    Row("review", "Critic", "review verdict", ["implement"])]

  const FEATURE := [
    Row("ideate", "Ideator", "task proposal", []),
    Row("design", "Architect", "design doc", ["ideate"]),
    Row("implement", "Builder", "feature code", ["design"]),
    Row("review", "Critic", "review verdict", ["implement"])]

  const TEST := [
    Row("generate_tests", "Builder", "test cases", []),
    Row("run_tests", "Critic", "test results", ["generate_tests"])]

  const TABLE := [Entry("auth", AUTH), Entry("refactor", REFACTOR), Entry("feature", FEATURE), Entry("test", TEST)]

  const COMPLEXITY_THRESHOLD := 3

  /** Each row depends on exactly the row before it. */
  ghost predicate RowsChained(rows: seq<Row>) {
    && rows != [] && rows[0].deps == []
    && (forall i :: 1 <= i < |rows| ==> rows[i].deps == [rows[i - 1].action])
    && (forall i, j :: 0 <= i < j < |rows| ==> rows[i].action != rows[j].action)
  }

  lemma {:induction false} TableIsChained()
    ensures forall k :: 0 <= k < |TABLE| ==> RowsChained(TABLE[k].rows)
  {
  }

  /** Each step depends on exactly the step before it. */
  ghost predicate Chain(steps: seq<Step>) {
    && (steps != [] ==> steps[0].dependsOn == [])
    && forall i :: 1 <= i < |steps| ==> steps[i].dependsOn == [steps[i - 1].id]
  }

  function StepId(i: nat): string {
    "step_" + Str(i)
  }

  function FixId(i: nat): string {
    "step_fix_" + Str(i)
  }

  const REFLECT := "step_reflect"
  const VERIFY := "step_verify"

  function StepOf(rows: seq<Row>, i: nat): Step
    requires i < |rows|
  {
    Step(StepId(i), rows[i].action, rows[i].agent, rows[i].output, if i == 0 then [] else [StepId(i - 1)])
  }

  /** What the rows become: numbered steps in a chain, with a reflection step when there are enough of them. */
  function PlannedSteps(rows: seq<Row>): (steps: seq<Step>)
    requires rows != []
    ensures |steps| >= |rows| && forall i :: 0 <= i < |rows| ==> steps[i] == StepOf(rows, i)
  {
    var n := |rows|;
    seq(n, i requires 0 <= i < n => StepOf(rows, i)) +
    if n >= COMPLEXITY_THRESHOLD
    then [Step(REFLECT, "reflect", "ReflectionNode", "gap report", [StepId(n - 1)])] else []
  }

  /** The rows of the first keyword in the goal. */
  function RowsFor(a: Alphabet, goal: string, table: seq<Entry>): seq<Row> {
    if table == [] then FEATURE
    else if Contains(Lower(a, goal), table[0].keyword) then table[0].rows else RowsFor(a, goal, table[1..])
  }

  lemma {:induction false} RowsForIsChained(a: Alphabet, goal: string, table: seq<Entry>)
    requires forall k :: 0 <= k < |table| ==> RowsChained(table[k].rows)
    ensures RowsChained(RowsFor(a, goal, table))
  {
    if table == [] {
      TableIsChained();
      assert TABLE[2].rows == FEATURE;
    } else {
      RowsForIsChained(a, goal, table[1..]);
    }
  }

  function PlanFor(a: Alphabet, goal: string): Blueprint {
    TableIsChained();
    RowsForIsChained(a, goal, TABLE);
    var rows := RowsFor(a, goal, TABLE);
    Blueprint(goal, PlannedSteps(rows), |rows| >= COMPLEXITY_THRESHOLD)
  }

  /** What each step asks of whom, and what it is to produce. */
  function Tasks(steps: seq<Step>): (ts: seq<(string, string, string)>)
    ensures |ts| == |steps| && forall i :: 0 <= i < |ts| ==> ts[i] == (steps[i].action, steps[i].agent, steps[i].expectedOutput)
  {
    seq(|steps|, i requires 0 <= i < |steps| => (steps[i].action, steps[i].agent, steps[i].expectedOutput))
  }

  lemma {:induction false} RowsByKeyword(a: Alphabet, goal: string)
    ensures var low := Lower(a, goal);
            RowsFor(a, goal, TABLE) ==
            if Contains(low, "auth") then AUTH else if Contains(low, "refactor") then REFACTOR
            else if Contains(low, "feature") then FEATURE else if Contains(low, "test") then TEST else FEATURE
  {
    var t1, t2, t3, t4 := TABLE[1..], TABLE[2..], TABLE[3..], TABLE[4..];
    assert t1[1..] == t2 && t2[1..] == t3 && t3[1..] == t4 == [];
    assert RowsFor(a, goal, t4) == FEATURE;
    assert RowsFor(a, goal, t3) == if Contains(Lower(a, goal), "test") then TEST else FEATURE;
    assert RowsFor(a, goal, t2) == if Contains(Lower(a, goal), "feature") then FEATURE else RowsFor(a, goal, t3);
    assert RowsFor(a, goal, t1) == if Contains(Lower(a, goal), "refactor") then REFACTOR else RowsFor(a, goal, t2);
  }

  /** Steps are numbered in a chain, and three or more of them are followed by reflection. */
  lemma {:induction false} PlanIsChain(a: Alphabet, goal: string)
    ensures var b := PlanFor(a, goal);
            && b.goal == goal && Chain(b.steps) && b.steps != []
            && (b.requiresReflection <==> |b.steps| > 3)
            && forall i :: 0 <= i < |b.steps| ==>
                 b.steps[i].id == if b.requiresReflection && i == |b.steps| - 1 then "step_reflect" else "step_" + Str(i)
  {
    TableIsChained();
    RowsForIsChained(a, goal, TABLE);
    RowsByKeyword(a, goal);
    PlanIsNumbered(RowsFor(a, goal, TABLE));
  }

  /** The first of the four keywords, in this order, that occurs in the lowered goal decides; without any it is a feature. */
  ghost predicate FollowsKeyword(low: string, ts: seq<(string, string, string)>) {
    if Contains(low, "auth") then
      ts == [("design", "Architect", "auth design doc"), ("implement", "Builder", "auth module"),
             ("review", "Critic", "review verdict"), ("reflect", "ReflectionNode", "gap report")]
    else if Contains(low, "refactor") then
      ts == [("analyze", "RefactorAgent", "refactor blueprint"), ("implement", "Builder", "refactored code"),
             ("review", "Critic", "review verdict"), ("reflect", "ReflectionNode", "gap report")]
    else if Contains(low, "feature") || !Contains(low, "test") then
      ts == [("ideate", "Ideator", "task proposal"), ("design", "Architect", "design doc"),
             ("implement", "Builder", "feature code"), ("review", "Critic", "review verdict"),
             ("reflect", "ReflectionNode", "gap report")]
    else
      ts == [("generate_tests", "Builder", "test cases"), ("run_tests", "Critic", "test results")]
  }

  lemma {:induction false} PlanFollowsKeyword(a: Alphabet, goal: string)
    ensures FollowsKeyword(Lower(a, goal), Tasks(PlanFor(a, goal).steps))
  {
    var low := Lower(a, goal);
    RowsByKeyword(a, goal);
    if Contains(low, "auth") {
    } else if Contains(low, "refactor") {
    } else if Contains(low, "feature") || !Contains(low, "test") {
    } else {
    }
  }

  method Plan(a: Alphabet, goal: string) returns (b: Blueprint)
    ensures b == PlanFor(a, goal)
    ensures FollowsKeyword(Lower(a, goal), Tasks(b.steps))
    ensures b.goal == goal && Chain(b.steps) && (b.requiresReflection <==> |b.steps| > 3)
    ensures forall i :: 0 <= i < |b.steps| ==>
              b.steps[i].id == if b.requiresReflection && i == |b.steps| - 1 then "step_reflect" else "step_" + Str(i)
  {
    PlanFollowsKeyword(a, goal);
    PlanIsChain(a, goal);
    b := MakePlan(a, goal);
  }

  method MakePlan(a: Alphabet, goal: string) returns (b: Blueprint)
    ensures b == PlanFor(a, goal)
  {
    TableIsChained();
    RowsForIsChained(a, goal, TABLE);
    var rows := MatchedRows(a, goal);
    var steps := NumberedSteps(rows);
    var requiresReflection := |rows| >= COMPLEXITY_THRESHOLD;
    if requiresReflection {
      steps := steps + [Step(REFLECT, "reflect", "ReflectionNode", "gap report", [steps[|steps| - 1].id])];
    }
    b := Blueprint(goal, steps, requiresReflection);
  }

  method MatchedRows(a: Alphabet, goal: string) returns (rows: seq<Row>)
    ensures rows == RowsFor(a, goal, TABLE)
  {
    var goalLower := Lower(a, goal);
    for k := 0 to |TABLE|
      invariant RowsFor(a, goal, TABLE) == RowsFor(a, goal, TABLE[k..])
    {
      if Contains(goalLower, TABLE[k].keyword) {
        return TABLE[k].rows;
      }
      assert TABLE[k..][1..] == TABLE[k + 1..];
    }
    rows := FEATURE;
  }

  method NumberedSteps(rows: seq<Row>) returns (steps: seq<Step>)
    requires RowsChained(rows)
    ensures steps == PlannedSteps(rows)[..|rows|]
  {
    steps := [];
    var stepMap: map<string, string> := map[];
    for i := 0 to |rows|
      invariant steps == PlannedSteps(rows)[..i] && Mapped(rows, stepMap, i)
    {
      var id := "step_" + Str(i);
      stepMap := stepMap[rows[i].action := id];
      MappedMore(rows, stepMap, i);
      var deps := KnownSteps(rows[i].deps, stepMap);
      steps := steps + [Step(id, rows[i].action, rows[i].agent, rows[i].output, deps)];
    }
  }

  /** The actions of the first `i` rows have their steps. */
  ghost predicate Mapped(rows: seq<Row>, stepMap: map<string, string>, i: nat) {
    i <= |rows| && forall k :: 0 <= k < i ==> rows[k].action in stepMap && stepMap[rows[k].action] == StepId(k)
  }

  lemma {:induction false} MappedMore(rows: seq<Row>, stepMap: map<string, string>, i: nat)
    requires RowsChained(rows) && i < |rows| && rows[i].action in stepMap && stepMap[rows[i].action] == StepId(i)
    requires forall k :: 0 <= k < i ==> rows[k].action in stepMap && stepMap[rows[k].action] == StepId(k)
    ensures Mapped(rows, stepMap, i + 1)
    ensures i > 0 ==> rows[i].deps == [rows[i - 1].action] && rows[i - 1].action in stepMap
    ensures i > 0 ==> stepMap[rows[i - 1].action] == StepId(i - 1)
  {
  }

  /** The comprehension over the dependencies that have a step. */
  method KnownSteps(deps: seq<string>, stepMap: map<string, string>) returns (ids: seq<string>)
    ensures deps == [] ==> ids == []
    ensures |deps| == 1 && deps[0] in stepMap ==> ids == [stepMap[deps[0]]]
  {
    ids := [];
    for k := 0 to |deps|
      invariant k == 0 ==> ids == []
      invariant k == 1 && deps[0] in stepMap ==> ids == [stepMap[deps[0]]]
    {
      if deps[k] in stepMap {
        ids := ids + [stepMap[deps[k]]];
      }
    }
  }

  // ----- replanning -----

  /** Python's `s[:n]`. */
  function Take(s: string, n: nat): string {
    if |s| <= n then s else s[..n]
  }

  function LastId(steps: seq<Step>): seq<string> {
    if steps == [] then [] else [steps[|steps| - 1].id]
  }

  function FixStep(steps: seq<Step>, gap: string): Step {
    Step(FixId(|steps|), "fix_gap: " + Take(gap, 40), "Builder", "fixed code", LastId(steps))
  }

  function VerifyStep(steps: seq<Step>): Step {
    Step(VERIFY, "verify", "Critic", "verification report", LastId(steps))
  }

  function WithFixes(steps: seq<Step>, gaps: seq<string>): (r: seq<Step>)
    ensures |r| == |steps| + |gaps| && r[..|steps|] == steps
  {
    if gaps == [] then steps
    else
      var before := WithFixes(steps, gaps[..|gaps| - 1]);
      before + [FixStep(before, gaps[|gaps| - 1])]
  }

  function Replanned(steps: seq<Step>, gaps: seq<string>): seq<Step> {
    if gaps == [] then steps
    else
      var fixed := WithFixes(steps, gaps);
      fixed + [VerifyStep(fixed)]
  }

  /** The steps a replan adds: a fix for each gap, quoting up to 40 characters of it, and a verification of the last. */
  lemma {:induction false} ReplanSteps(steps: seq<Step>, gaps: seq<string>, k: nat)
    requires gaps != [] && k <= |gaps|
    ensures var r := Replanned(steps, gaps);
            && |r| == |steps| + |gaps| + 1 && r[..|steps|] == steps
            && var i := |steps| + k;
            && r[i].dependsOn == (if i == 0 then [] else [r[i - 1].id])
            && (k == |gaps| ==> r[i].id == "step_verify" && r[i].action == "verify" && r[i].agent == "Critic" &&
                                r[i].expectedOutput == "verification report")
            && (k < |gaps| ==>
                  && r[i].id == "step_fix_" + Str(i) && r[i].agent == "Builder" && r[i].expectedOutput == "fixed code"
                  && r[i].action == "fix_gap: " + if |gaps[k]| <= 40 then gaps[k] else gaps[k][..40])
  {
    var fixed := WithFixes(steps, gaps);
    if k < |gaps| {
      FixesOneByOne(steps, gaps, k);
    }
  }

  lemma {:induction false} FixesOneByOne(steps: seq<Step>, gaps: seq<string>, k: nat)
    requires k < |gaps|
    ensures var r, i := WithFixes(steps, gaps), |steps| + k;
            && r[..i] == WithFixes(steps, gaps[..k]) && r[i] == FixStep(r[..i], gaps[k])
  {
    var n := |gaps| - 1;
    var before := WithFixes(steps, gaps[..n]);
    assert WithFixes(steps, gaps)[..|before|] == before;
    if k < n {
      FixesOneByOne(steps, gaps[..n], k);
      assert gaps[..n][..k] == gaps[..k];
      assert WithFixes(steps, gaps)[..|steps| + k] == before[..|steps| + k];
    }
  }

  method Replan(original: Blueprint, gaps: seq<string>) returns (b: Blueprint)
    ensures b == if gaps == [] then original else Blueprint(original.goal, Replanned(original.steps, gaps), true)
  {
    if gaps == [] {
      return original;
    }
    var newSteps := original.steps;
    for i := 0 to |gaps|
      invariant newSteps == WithFixes(original.steps, gaps[..i])
    {
      assert gaps[..i + 1][..i] == gaps[..i];
      var fix := Step("step_fix_" + Str(|newSteps|), "fix_gap: " + Take(gaps[i], 40), "Builder", "fixed code",
                      if newSteps == [] then [] else [newSteps[|newSteps| - 1].id]);
      newSteps := newSteps + [fix];
    }
    assert gaps[..|gaps|] == gaps;
    var verify := Step("step_verify", "verify", "Critic", "verification report", [newSteps[|newSteps| - 1].id]);
    b := Blueprint(original.goal, newSteps + [verify], true);
  }

  /** The steps after any number of replans. */
  function AfterReplans(steps: seq<Step>, rounds: seq<seq<string>>): seq<Step> {
    if rounds == [] then steps
    else Replanned(AfterReplans(steps, rounds[..|rounds| - 1]), rounds[|rounds| - 1])
  }

  function WithGaps(rounds: seq<seq<string>>): nat {
    if rounds == [] then 0
    else WithGaps(rounds[..|rounds| - 1]) + if rounds[|rounds| - 1] == [] then 0 else 1
  }

  // ----- ids and order -----

  ghost predicate PlannedId(id: string, i: nat) {
    id == StepId(i) || id == REFLECT
  }

  /** Position by position: planned steps, then fixes named after their position, and verify steps. */
  ghost predicate Numbered(steps: seq<Step>, base: nat) {
    && base <= |steps|
    && (forall i :: 0 <= i < base ==> PlannedId(steps[i].id, i))
    && (forall i, j :: 0 <= i < j < base ==> steps[i].id != steps[j].id)
    && (forall i :: base <= i < |steps| ==> steps[i].id == FixId(i) || steps[i].id == VERIFY)
  }

  function Verifies(steps: seq<Step>): nat {
    if steps == [] then 0
    else Verifies(steps[..|steps| - 1]) + if steps[|steps| - 1].id == VERIFY then 1 else 0
  }

  lemma {:induction false} IdsDiffer(i: nat, j: nat)
    ensures StepId(i) != REFLECT && StepId(i) != FixId(j) && StepId(i) != VERIFY
    ensures REFLECT != FixId(j) && REFLECT != VERIFY && FixId(j) != VERIFY
    ensures i != j ==> StepId(i) != StepId(j) && FixId(i) != FixId(j)
  {
    assert StepId(i)[5] == Str(i)[0];
    assert FixId(j)[5] == 'f' && FixId(j)[6] == 'i';
    assert REFLECT[5] == 'r' && VERIFY[5] == 'v';
    if StepId(i) == StepId(j) {
      PrefixedInjective("step_", i, j);
    }
    if FixId(i) == FixId(j) {
      PrefixedInjective("step_fix_", i, j);
    }
  }

  /** Only the id of the verify step can repeat. */
  lemma {:induction false} OnlyVerifyRepeats(steps: seq<Step>, base: nat, i: nat, j: nat)
    requires Numbered(steps, base) && i < j < |steps| && steps[i].id == steps[j].id
    ensures steps[i].id == VERIFY
  {
    IdsDiffer(i, j);
    IdsDiffer(j, i);
  }

  lemma {:induction false} VerifiesSplit(a: seq<Step>, b: seq<Step>)
    ensures Verifies(a + b) == Verifies(a) + Verifies(b)
  {
    if b == [] {
      assert a + b == a;
    } else {
      assert (a + b)[..|a + b| - 1] == a + b[..|b| - 1];
      VerifiesSplit(a, b[..|b| - 1]);
    }
  }

  lemma {:induction false} NoVerify(steps: seq<Step>)
    requires forall i :: 0 <= i < |steps| ==> steps[i].id != VERIFY
    ensures Verifies(steps) == 0
  {
    if steps != [] {
      NoVerify(steps[..|steps| - 1]);
    }
  }

  lemma {:induction false} VerifyAt(steps: seq<Step>, i: nat)
    requires i < |steps| && steps[i].id == VERIFY
    ensures Verifies(steps) == Verifies(steps[..i]) + 1 + Verifies(steps[i + 1..])
  {
    VerifiesSplit(steps[..i], steps[i..]);
    assert steps == steps[..i] + steps[i..];
    VerifiesSplit([steps[i]], steps[i + 1..]);
    assert steps[i..] == [steps[i]] + steps[i + 1..];
    assert [steps[i]][..0] == [];
  }

  lemma {:induction false} SomeVerify(steps: seq<Step>) returns (i: nat)
    requires Verifies(steps) > 0
    ensures i < |steps| && steps[i].id == VERIFY
  {
    var n := |steps| - 1;
    if steps[n].id == VERIFY {
      i := n;
    } else {
      i := SomeVerify(steps[..n]);
    }
  }

  lemma {:induction false} DistinctIffOneVerify(steps: seq<Step>, base: nat)
    requires Numbered(steps, base)
    ensures DistinctIds(steps) <==> Verifies(steps) <= 1
  {
    if Verifies(steps) > 1 {
      var i := SomeVerify(steps);
      VerifyAt(steps, i);
      if Verifies(steps[..i]) > 0 {
        var j := SomeVerify(steps[..i]);
        assert steps[j].id == steps[i].id;
      } else {
        var j := SomeVerify(steps[i + 1..]);
        assert steps[i].id == steps[i + 1 + j].id;
      }
    } else {
      forall i, j | 0 <= i < j < |steps| ensures steps[i].id != steps[j].id {
        if steps[i].id == steps[j].id {
          OnlyVerifyRepeats(steps, base, i, j);
          VerifyAt(steps, j);
          VerifyAt(steps[..j], i);
        }
      }
    }
  }

  lemma {:induction false} PlanIsNumbered(rows: seq<Row>)
    requires RowsChained(rows)
    ensures var steps := PlannedSteps(rows);
            Numbered(steps, |steps|) && Chain(steps) && Verifies(steps) == 0
  {
    var steps := PlannedSteps(rows);
    forall i, j | 0 <= i < j < |steps| ensures steps[i].id != steps[j].id {
      IdsDiffer(i, j);
    }
    forall i | 0 <= i < |steps| ensures steps[i].id != VERIFY {
      IdsDiffer(i, i);
    }
    NoVerify(steps);
  }

  lemma {:induction false} OneMoreStep(steps: seq<Step>, base: nat, s: Step)
    requires Numbered(steps, base) && Chain(steps)
    requires s.dependsOn == LastId(steps) && (s.id == FixId(|steps|) || s.id == VERIFY)
    ensures Numbered(steps + [s], base) && Chain(steps + [s])
    ensures Verifies(steps + [s]) == Verifies(steps) + if s.id == VERIFY then 1 else 0
  {
    assert (steps + [s])[..|steps|] == steps;
  }

  lemma {:induction false} FixesKeepShape(steps: seq<Step>, base: nat, gaps: seq<string>)
    requires Numbered(steps, base) && Chain(steps)
    ensures Numbered(WithFixes(steps, gaps), base) && Chain(WithFixes(steps, gaps))
    ensures Verifies(WithFixes(steps, gaps)) == Verifies(steps)
  {
    if gaps != [] {
      FixesKeepShape(steps, base, gaps[..|gaps| - 1]);
      var before := WithFixes(steps, gaps[..|gaps| - 1]);
      IdsDiffer(0, |before|);
      OneMoreStep(before, base, FixStep(before, gaps[|gaps| - 1]));
    }
  }

  lemma {:induction false} ReplanKeepsShape(steps: seq<Step>, base: nat, gaps: seq<string>)
    requires Numbered(steps, base) && Chain(steps)
    ensures Numbered(Replanned(steps, gaps), base) && Chain(Replanned(steps, gaps))
    ensures Verifies(Replanned(steps, gaps)) == Verifies(steps) + if gaps == [] then 0 else 1
  {
    if gaps != [] {
      FixesKeepShape(steps, base, gaps);
      var fixed := WithFixes(steps, gaps);
      OneMoreStep(fixed, base, VerifyStep(fixed));
    }
  }

  lemma {:induction false} ReplanAppends(steps: seq<Step>, gaps: seq<string>)
    ensures |Replanned(steps, gaps)| == |steps| + if gaps == [] then 0 else |gaps| + 1
    ensures Replanned(steps, gaps)[..|steps|] == steps
  {
  }

  lemma {:induction false} ReplansAppend(p: seq<Step>, rounds: seq<seq<string>>)
    ensures |AfterReplans(p, rounds)| >= |p| && AfterReplans(p, rounds)[..|p|] == p
  {
    if rounds != [] {
      var n := |rounds| - 1;
      ReplansAppend(p, rounds[..n]);
      ReplanAppends(AfterReplans(p, rounds[..n]), rounds[n]);
      assert AfterReplans(p, rounds)[..|AfterReplans(p, rounds[..n])|][..|p|] == AfterReplans(p, rounds)[..|p|];
    }
  }

  lemma {:induction false} ReplansKeepShape(p: seq<Step>, base: nat, rounds: seq<seq<string>>)
    requires Numbered(p, base) && Chain(p) && Verifies(p) == 0
    ensures Numbered(AfterReplans(p, rounds), base) && Chain(AfterReplans(p, rounds))
    ensures Verifies(AfterReplans(p, rounds)) == WithGaps(rounds)
  {
    if rounds != [] {
      var n := |rounds| - 1;
      ReplansKeepShape(p, base, rounds[..n]);
      ReplanKeepsShape(AfterReplans(p, rounds[..n]), base, rounds[n]);
    }
  }

  lemma {:induction false} ChainIsTopological(steps: seq<Step>)
    requires Chain(steps)
    ensures Topological(steps) && AllKnown(steps)
  {
    forall i, d | 0 <= i < |steps| && d in steps[i].dependsOn ensures HasId(steps[..i], d) {
      assert steps[..i][i - 1].id == d;
    }
    forall i, d | 0 <= i < |steps| && d in steps[i].dependsOn ensures HasId(steps, d) {
      assert steps[i - 1].id == d;
    }
  }

  /** A chain has one topological order: its own. */
  lemma {:induction false} ChainOrderIsUnique(steps: seq<Step>, order: seq<Step>, k: nat)
    requires Chain(steps) && DistinctIds(steps) && Topological(order) && multiset(order) == multiset(steps)
    requires k <= |order|
    ensures |order| == |steps| && order[..k] == steps[..k]
  {
    assert |multiset(order)| == |order| && |multiset(steps)| == |steps|;
    if k > 0 {
      ChainOrderIsUnique(steps, order, k - 1);
      assert order[k - 1] in multiset(order);
      var j :| 0 <= j < |steps| && steps[j] == order[k - 1];
      if j > 0 {
        assert steps[j - 1].id in order[k - 1].dependsOn;
        var i :| 0 <= i < k - 1 && order[..k - 1][i].id == steps[j - 1].id;
        assert steps[..k - 1][i].id == steps[j - 1].id;
        assert i == j - 1;
      }
      if j < k - 1 {
        assert order[..k - 1][j] == steps[..k - 1][j];
        TwiceInOrder(order, j, k - 1);
        OnceInSteps(steps, j);
      }
    }
  }

  lemma {:induction false} TwiceInOrder(order: seq<Step>, i: nat, j: nat)
    requires i < j < |order| && order[i] == order[j]
    ensures multiset(order)[order[i]] >= 2
  {
    assert order == order[..j] + [order[j]] + order[j + 1..];
    assert order[i] in order[..j];
  }

  lemma {:induction false} OnceInSteps(steps: seq<Step>, i: nat)
    requires DistinctIds(steps) && i < |steps|
    ensures multiset(steps)[steps[i]] == 1
  {
    assert steps == steps[..i] + [steps[i]] + steps[i + 1..];
    assert steps[i] !in steps[..i] && steps[i] !in steps[i + 1..];
  }

  /**
   Whatever the goal and the gaps: replanning only appends, every dependency is an earlier step, only the verify
   step's id can repeat, and the plan can be ordered by `topological_order` until the second round with gaps.
   */
  lemma {:induction false} PlansStayOrdered(a: Alphabet, goal: string, rounds: seq<seq<string>>)
    ensures var p, steps := PlanFor(a, goal).steps, AfterReplans(PlanFor(a, goal).steps, rounds);
            && p != [] && |steps| >= |p| && steps[..|p|] == p
            && Chain(steps) && Topological(steps) && AllKnown(steps)
            && (forall i, j :: 0 <= i < j < |steps| && steps[i].id == steps[j].id ==> steps[i].id == VERIFY)
            && (DistinctIds(steps) <==> WithGaps(rounds) <= 1)
            && (DistinctIds(steps) ==> Acyclic(steps))
  {
    TableIsChained();
    RowsForIsChained(a, goal, TABLE);
    var rows := RowsFor(a, goal, TABLE);
    var p, steps := PlannedSteps(rows), AfterReplans(PlannedSteps(rows), rounds);
    PlanIsNumbered(rows);
    ReplansAppend(p, rounds);
    ReplansKeepShape(p, |p|, rounds);
    ChainIsTopological(steps);
    DistinctIffOneVerify(steps, |p|);
    forall i, j | 0 <= i < j < |steps| && steps[i].id == steps[j].id ensures steps[i].id == VERIFY {
      OnlyVerifyRepeats(steps, |p|, i, j);
    }
    if DistinctIds(steps) {
      TopologicalIsAcyclic(steps, steps);
    }
  }
}
