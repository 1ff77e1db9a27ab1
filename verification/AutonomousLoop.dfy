/** The simulated execution of a plan: its text, and which criteria that text meets. */
module Execution {
  import opened Options
  import opened Workflow
  import opened Graphs
  import opened KahnOrder
  import opened TextMatch
  import opened Reflection
  import opened BlueprintPlanner

  function Line(s: Step): string {
    "[" + s.agent + "] " + s.action + " -> " + s.expectedOutput
  }

  /** One line per step, joined by newlines. */
  function Output(steps: seq<Step>): string {
    if steps == [] then ""
    else if |steps| == 1 then Line(steps[0])
    else Output(steps[..|steps| - 1]) + "\n" + Line(steps[|steps| - 1])
  }

  /** The text, line by line. */
  lemma {:induction false} OutputLines(steps: seq<Step>, s: Step)
    ensures Output([]) == "" && Output([s]) == "[" + s.agent + "] " + s.action + " -> " + s.expectedOutput
    ensures steps != [] ==>
              Output(steps + [s]) == Output(steps) + "\n" + "[" + s.agent + "] " + s.action + " -> " + s.expectedOutput
  {
    assert (steps + [s])[..|steps|] == steps;
    assert Output(steps) + "\n" + Line(s) == Output(steps) + "\n" + "[" + s.agent + "] " + s.action + " -> " + s.expectedOutput;
  }

  /** How the text comes about: some order of the steps, each after its dependencies where that is possible. */
  ghost predicate Executed(steps: seq<Step>, order: seq<Step>, text: string) {
    && text == Output(order) && multiset(order) == multiset(steps)
    && if DistinctIds(steps) && Acyclic(steps) then Topological(order) else order == steps
  }

  /** None is the KeyError of an unknown dependency, which nothing catches. */
  method SimulateExecution(blueprint: Blueprint) returns (output: Option<string>)
    ensures output.None? <==> !AllKnown(blueprint.steps)
    ensures output.Some? ==> exists order :: Executed(blueprint.steps, order, output.value)
    ensures Chain(blueprint.steps) ==> output == Some(Output(blueprint.steps))
  {
    var r := TopologicalOrder(blueprint.steps);
    var ordered: seq<Step>;
    match r {
      case UnknownDependency =>
        if Chain(blueprint.steps) {
          ChainIsTopological(blueprint.steps);
        }
        return None;
      case CircularDependency => ordered := blueprint.steps;
      case Ordered(order) =>
        ordered := order;
        if Chain(blueprint.steps) {
          ChainOrderIsUnique(blueprint.steps, order, |order|);
          assert order[..|order|] == order && blueprint.steps[..|order|] == blueprint.steps;
        }
    }
    var text := Joined(ordered);
    assert Executed(blueprint.steps, ordered, text);
    output := Some(text);
  }

  method Joined(ordered: seq<Step>) returns (text: string)
    ensures text == Output(ordered)
  {
    text := "";
    for i := 0 to |ordered|
      invariant text == Output(ordered[..i])
    {
      assert ordered[..i + 1][..i] == ordered[..i];
      text := if i == 0 then Line(ordered[i]) else text + "\n" + Line(ordered[i]);
    }
    assert ordered[..|ordered|] == ordered;
  }

  // ----- a criterion is met by one of the lines -----

  ghost predicate MetByLine(a: Alphabet, steps: seq<Step>, criterion: string) {
    exists i :: 0 <= i < |steps| && CheckCriterion(a, Line(steps[i]), criterion)
  }

  lemma {:induction false} LineIsPart(steps: seq<Step>, i: nat) returns (before: string, after: string)
    requires i < |steps|
    ensures Output(steps) == before + Line(steps[i]) + after
  {
    var n := |steps| - 1;
    if n == 0 {
      before, after := "", "";
    } else if i == n {
      before, after := Output(steps[..n]) + "\n", "";
    } else {
      before, after := LineIsPart(steps[..n], i);
      after := after + "\n" + Line(steps[n]);
    }
  }

  lemma {:induction false} CharInside(s: string, w: string, i: nat, p: nat)
    requires OccursAt(s, w, i) && i <= p < i + |w|
    ensures s[p] in w
  {
    assert w[p - i] == s[p];
  }

  /** A text without a newline cannot straddle the end of a line. */
  lemma {:induction false} NotAcross(a: Alphabet, s: string, t: string, w: string)
    requires Sound(a) && w != "" && '\n' !in w && Contains(Lower(a, s + "\n" + t), w)
    ensures Contains(Lower(a, s), w) || Contains(Lower(a, t), w)
  {
    var whole := Lower(a, s + "\n" + t);
    var i: nat :| i <= |whole| && OccursAt(whole, w, i);
    if i + |w| <= |s| {
      assert Lower(a, s)[i..i + |w|] == whole[i..i + |w|];
      OccursHere(Lower(a, s), w, i);
    } else if i > |s| {
      var k := i - |s| - 1;
      assert Lower(a, t)[k..k + |w|] == whole[i..i + |w|];
      OccursHere(Lower(a, t), w, k);
    } else {
      CharInside(whole, w, i, |s|);
    }
  }

  lemma {:induction false} FoundInLine(a: Alphabet, steps: seq<Step>, w: string) returns (i: nat)
    requires Sound(a) && w != "" && '\n' !in w && Contains(Lower(a, Output(steps)), w)
    ensures i < |steps| && Contains(Lower(a, Line(steps[i])), w)
  {
    var n := |steps| - 1;
    if n <= 0 {
      i := 0;
    } else {
      NotAcross(a, Output(steps[..n]), Line(steps[n]), w);
      if Contains(Lower(a, Line(steps[n])), w) {
        i := n;
      } else {
        i := FoundInLine(a, steps[..n], w);
      }
    }
  }

  lemma {:induction false} MetWhenLineMeets(a: Alphabet, steps: seq<Step>, i: nat, criterion: string)
    requires i < |steps| && CheckCriterion(a, Line(steps[i]), criterion)
    ensures CheckCriterion(a, Output(steps), criterion)
  {
    var before, after := LineIsPart(steps, i);
    var line := Line(steps[i]);
    LowerJoins(a, before, line);
    LowerJoins(a, before + line, after);
    var w :| w in Words(a, criterion) && |w| > 3 && Contains(Lower(a, line), Lower(a, w));
    ContainsInside(Lower(a, before), Lower(a, line), Lower(a, after), Lower(a, w));
  }

  /** Only the set of lines matters for what an output meets. */
  lemma {:induction false} MetIffLine(a: Alphabet, steps: seq<Step>, criterion: string)
    requires Sound(a)
    ensures CheckCriterion(a, Output(steps), criterion) <==> MetByLine(a, steps, criterion)
  {
    if CheckCriterion(a, Output(steps), criterion) {
      var w :| w in Words(a, criterion) && |w| > 3 && Contains(Lower(a, Output(steps)), Lower(a, w));
      WordsHaveNoSpace(a, [], criterion, w);
      var i := FoundInLine(a, steps, Lower(a, w));
      assert CheckCriterion(a, Line(steps[i]), criterion);
    }
    if MetByLine(a, steps, criterion) {
      var i :| 0 <= i < |steps| && CheckCriterion(a, Line(steps[i]), criterion);
      MetWhenLineMeets(a, steps, i, criterion);
    }
  }

  /** A criterion met on one attempt stays met after any replan, whatever the gaps. */
  lemma {:induction false} MetStaysMet(a: Alphabet, steps: seq<Step>, gaps: seq<string>, criterion: string)
    requires Sound(a) && CheckCriterion(a, Output(steps), criterion)
    ensures CheckCriterion(a, Output(Replanned(steps, gaps)), criterion)
  {
    MetIffLine(a, steps, criterion);
    var i :| 0 <= i < |steps| && CheckCriterion(a, Line(steps[i]), criterion);
    ReplanAppends(steps, gaps);
    assert Replanned(steps, gaps)[..|steps|][i] == Replanned(steps, gaps)[i];
    MetWhenLineMeets(a, Replanned(steps, gaps), i, criterion);
  }

  // ----- the lines that replanning adds -----

  ghost predicate HasLine(steps: seq<Step>, line: string) {
    exists i :: 0 <= i < |steps| && Line(steps[i]) == line
  }

  /** A line names no id and no dependency, so it does not depend on where its step stands. */
  function FixLine(gap: string): string {
    Line(FixStep([], gap))
  }

  const VERIFY_LINE := Line(VerifyStep([]))

  lemma {:induction false} FixLines(steps: seq<Step>, gaps: seq<string>, i: nat)
    requires i < |gaps|
    ensures Line(WithFixes(steps, gaps)[|steps| + i]) == FixLine(gaps[i])
  {
    var n := |gaps| - 1;
    if i == n {
      assert WithFixes(steps, gaps)[|steps| + i] == FixStep(WithFixes(steps, gaps[..n]), gaps[n]);
    } else {
      FixLines(steps, gaps[..n], i);
    }
  }

  lemma {:induction false} ReplanLines(steps: seq<Step>, gaps: seq<string>, i: nat)
    requires gaps != [] && i < |Replanned(steps, gaps)|
    ensures i < |steps| ==> Replanned(steps, gaps)[i] == steps[i]
    ensures |steps| <= i < |steps| + |gaps| ==> Line(Replanned(steps, gaps)[i]) == FixLine(gaps[i - |steps|])
    ensures i == |steps| + |gaps| ==> Line(Replanned(steps, gaps)[i]) == VERIFY_LINE
  {
    var fixed := WithFixes(steps, gaps);
    if i < |steps| {
      assert fixed[..|steps|][i] == steps[i];
    } else if i < |fixed| {
      FixLines(steps, gaps, i - |steps|);
    } else {
      assert Replanned(steps, gaps)[i] == VerifyStep(fixed);
    }
  }

  /** The lines that fixing these criteria would add are there already. */
  ghost predicate AlreadyTried(steps: seq<Step>, unmet: seq<string>) {
    HasLine(steps, VERIFY_LINE) && forall c :: c in unmet ==> Tried(steps, c)
  }

  ghost predicate Tried(steps: seq<Step>, criterion: string) {
    HasLine(steps, FixLine(GAP + criterion))
  }

  /** After a replan for `unmet`, every line a further replan could add has been tried. */
  lemma {:induction false} ReplanTries(steps: seq<Step>, unmet: seq<string>)
    requires unmet != []
    ensures AlreadyTried(Replanned(steps, Prefixed(GAP, unmet)), unmet)
  {
    var gaps := Prefixed(GAP, unmet);
    var after := Replanned(steps, gaps);
    ReplanLines(steps, gaps, |steps| + |gaps|);
    forall c | c in unmet ensures Tried(after, c) {
      var i :| 0 <= i < |unmet| && unmet[i] == c;
      ReplanLines(steps, gaps, |steps| + i);
    }
  }

  lemma {:induction false} NoNewLine(steps: seq<Step>, unmet: seq<string>, i: nat) returns (j: nat)
    requires unmet != [] && AlreadyTried(steps, unmet) && i < |Replanned(steps, Prefixed(GAP, unmet))|
    ensures j < |steps| && Line(steps[j]) == Line(Replanned(steps, Prefixed(GAP, unmet))[i])
  {
    ReplanLines(steps, Prefixed(GAP, unmet), i);
    if i < |steps| {
      j := i;
    } else {
      var line := if i < |steps| + |unmet| then FixLine(GAP + unmet[i - |steps|]) else VERIFY_LINE;
      assert i < |steps| + |unmet| ==> Tried(steps, unmet[i - |steps|]);
      assert HasLine(steps, line);
      j :| 0 <= j < |steps| && Line(steps[j]) == line;
    }
  }

  /** Replanning for criteria tried before changes nothing about which criteria are met. */
  lemma {:induction false} TriedAgain(a: Alphabet, steps: seq<Step>, unmet: seq<string>, criterion: string)
    requires Sound(a) && unmet != [] && AlreadyTried(steps, unmet)
    ensures var after := Replanned(steps, Prefixed(GAP, unmet));
            CheckCriterion(a, Output(after), criterion) <==> CheckCriterion(a, Output(steps), criterion)
  {
    var after := Replanned(steps, Prefixed(GAP, unmet));
    if CheckCriterion(a, Output(after), criterion) {
      MetIffLine(a, after, criterion);
      var i :| 0 <= i < |after| && CheckCriterion(a, Line(after[i]), criterion);
      var j := NoNewLine(steps, unmet, i);
      MetWhenLineMeets(a, steps, j, criterion);
    }
    if CheckCriterion(a, Output(steps), criterion) {
      MetStaysMet(a, steps, Prefixed(GAP, unmet), criterion);
    }
  }

  lemma {:induction false} TriedStays(steps: seq<Step>, gaps: seq<string>, unmet: seq<string>)
    requires AlreadyTried(steps, unmet)
    ensures AlreadyTried(Replanned(steps, gaps), unmet)
  {
    ReplanAppends(steps, gaps);
    var after := Replanned(steps, gaps);
    forall line | HasLine(steps, line) ensures HasLine(after, line) {
      var j :| 0 <= j < |steps| && Line(steps[j]) == line;
      assert after[..|steps|][j] == after[j];
    }
  }

  lemma {:induction false} SameUnmet(a: Alphabet, s: string, t: string, criteria: seq<string>)
    requires forall c :: c in criteria ==> (CheckCriterion(a, s, c) <==> CheckCriterion(a, t, c))
    ensures Unmet(a, s, criteria) == Unmet(a, t, criteria)
  {
    if criteria != [] {
      var n := |criteria| - 1;
      assert criteria == criteria[..n] + [criteria[n]];
      SameUnmet(a, s, t, criteria[..n]);
    }
  }

  lemma {:induction false} LowerContains(a: Alphabet, s: string, w: string)
    requires Contains(s, w)
    ensures Contains(Lower(a, s), Lower(a, w))
  {
    var i: nat :| i <= |s| && OccursAt(s, w, i);
    forall k | 0 <= k < |w| ensures Lower(a, s)[i + k] == Lower(a, w)[k] {
      assert s[i..i + |w|][k] == s[i + k];
    }
    assert Lower(a, s)[i..i + |w|] == Lower(a, w);
    OccursHere(Lower(a, s), Lower(a, w), i);
  }

  lemma {:induction false} QuotedWord(criterion: string, i: nat, j: nat)
    requires i <= j <= |criterion| && j <= 21
    ensures Contains(Take(GAP + criterion, 40), criterion[i..j])
  {
    assert |GAP| == 19;
    var gap := GAP + criterion;
    assert Take(gap, 40)[19 + i..19 + j] == criterion[i..j];
    OccursHere(Take(gap, 40), criterion[i..j], 19 + i);
  }

  lemma {:induction false} FixLineHas(criterion: string, i: nat, j: nat)
    requires i <= j <= |criterion| && j <= 21
    ensures Contains(FixLine(GAP + criterion), criterion[i..j])
  {
    var w, step := criterion[i..j], FixStep([], GAP + criterion);
    QuotedWord(criterion, i, j);
    ContainsInside("fix_gap: ", Take(GAP + criterion, 40), "", w);
    assert step.action + "" == step.action;
    ContainsInside("[" + step.agent + "] ", step.action, " -> " + step.expectedOutput, w);
    assert Line(step) == "[" + step.agent + "] " + step.action + (" -> " + step.expectedOutput);
  }

  /** The quotation of a criterion in its fix line is long enough to hold its first 21 characters. */
  lemma {:induction false} FixMeets(a: Alphabet, criterion: string, i: nat, j: nat)
    requires WholeWord(a, criterion, i, j) && j - i > 3 && j <= 21
    ensures CheckCriterion(a, FixLine(GAP + criterion), criterion)
  {
    var w := criterion[i..j];
    assert w in Words(a, criterion) by {
      WholeWordIsSplit(a, [], criterion, i, j);
      assert [] + criterion[..j] == criterion[0..j];
    }
    FixLineHas(criterion, i, j);
    LowerContains(a, FixLine(GAP + criterion), w);
  }
}

/** A bounded retry loop over any state: evaluate, stop without gaps, otherwise replan and try again. */
module RetryLoop {

  /** How the attempts end: the number made, the last state and the gaps left. */
  datatype Ending<S> = Ending(success: bool, attempts: nat, last: S, gaps: seq<string>)

  ghost function Attempts<S>(gapsOf: S -> seq<string>, replan: S -> S, s: S, attempt: nat, max: nat): Ending<S>
    requires 1 <= attempt <= max
    decreases max - attempt
  {
    if gapsOf(s) == [] then Ending(true, attempt, s, [])
    else if attempt == max then Ending(false, max, replan(s), gapsOf(s))
    else Attempts(gapsOf, replan, replan(s), attempt + 1, max)
  }

  /** Success is an ending without gaps, at a plan that has none; failure is one that used every attempt. */
  lemma {:induction false} EndingMeans<S>(gapsOf: S -> seq<string>, replan: S -> S, s: S, attempt: nat, max: nat)
    requires 1 <= attempt <= max
    ensures var e := Attempts(gapsOf, replan, s, attempt, max);
            && (e.success <==> e.gaps == []) && attempt <= e.attempts <= max
            && (e.success ==> gapsOf(e.last) == []) && (!e.success ==> e.attempts == max)
    decreases max - attempt
  {
    if gapsOf(s) != [] && attempt < max {
      EndingMeans(gapsOf, replan, replan(s), attempt + 1, max);
    }
  }

  /** Where replanning changes no gap, no later attempt differs. */
  lemma {:induction false} Stuck<S(!new)>(
    gapsOf: S -> seq<string>, replan: S -> S, tried: S -> bool, s: S, attempt: nat, max: nat)
    requires 1 <= attempt <= max && tried(s) && gapsOf(s) != []
    requires forall t :: tried(t) && gapsOf(t) == gapsOf(s) ==> tried(replan(t)) && gapsOf(replan(t)) == gapsOf(s)
    ensures var e := Attempts(gapsOf, replan, s, attempt, max);
            !e.success && e.attempts == max && e.gaps == gapsOf(s)
    decreases max - attempt
  {
    if attempt < max {
      Stuck(gapsOf, replan, tried, replan(s), attempt + 1, max);
    }
  }
}

/** The self-correcting loop. */
module AutonomousLoop {
  import opened Options
  import opened Workflow
  import opened Graphs
  import opened TextMatch
  import opened Reflection
  import opened BlueprintPlanner
  import opened Execution
  import opened RetryLoop
  import opened AgentHistory
  import opened AgentMemory
  import opened Decimal
  import GraphModel
  import GraphMemory

  ghost function GapsOf(a: Alphabet, criteria: seq<string>): seq<Step> -> seq<string> {
    steps => Prefixed(GAP, Unmet(a, Output(steps), criteria))
  }

  ghost function ReplanFor(a: Alphabet, criteria: seq<string>): seq<Step> -> seq<Step> {
    steps => Replanned(steps, Prefixed(GAP, Unmet(a, Output(steps), criteria)))
  }

  /** What `run` does with a plan and its criteria, up to recording the outcome. */
  ghost function RunEnding(a: Alphabet, criteria: seq<string>, steps: seq<Step>, max: nat): Ending<seq<Step>>
    requires max >= 1
  {
    Attempts(GapsOf(a, criteria), ReplanFor(a, criteria), steps, 1, max)
  }

  lemma {:induction false} RunEndingMeans(a: Alphabet, criteria: seq<string>, steps: seq<Step>, max: nat)
    requires max >= 1
    ensures var e := RunEnding(a, criteria, steps, max);
            && (e.success <==> e.gaps == []) && 1 <= e.attempts <= max && (!e.success ==> e.attempts == max)
            && (e.success ==> forall c :: c in criteria ==> CheckCriterion(a, Output(e.last), c))
  {
    EndingMeans(GapsOf(a, criteria), ReplanFor(a, criteria), steps, 1, max);
    UnmetAre(a, Output(RunEnding(a, criteria, steps, max).last), criteria);
    assert |Prefixed(GAP, Unmet(a, Output(RunEnding(a, criteria, steps, max).last), criteria))| ==
           |Unmet(a, Output(RunEnding(a, criteria, steps, max).last), criteria)|;
  }

  lemma {:induction false} StaysTried(a: Alphabet, criteria: seq<string>, steps: seq<Step>, unmet: seq<string>)
    requires Sound(a) && unmet == Unmet(a, Output(steps), criteria) && unmet != [] && AlreadyTried(steps, unmet)
    ensures var next := Replanned(steps, Prefixed(GAP, unmet));
            Unmet(a, Output(next), criteria) == unmet && AlreadyTried(next, unmet)
  {
    var next := Replanned(steps, Prefixed(GAP, unmet));
    forall c | c in criteria ensures CheckCriterion(a, Output(next), c) <==> CheckCriterion(a, Output(steps), c) {
      TriedAgain(a, steps, unmet, c);
    }
    SameUnmet(a, Output(next), Output(steps), criteria);
    TriedStays(steps, Prefixed(GAP, unmet), unmet);
  }

  lemma {:induction false} PrefixedSame(prefix: string, ss: seq<string>, ts: seq<string>)
    requires Prefixed(prefix, ss) == Prefixed(prefix, ts)
    ensures ss == ts
  {
    forall i | 0 <= i < |ss| ensures |ts| == |ss| && ss[i] == ts[i] {
      assert (prefix + ss[i])[|prefix|..] == ss[i];
      assert (prefix + ts[i])[|prefix|..] == ts[i];
      assert Prefixed(prefix, ss)[i] == Prefixed(prefix, ts)[i];
    }
    assert |Prefixed(prefix, ss)| == |Prefixed(prefix, ts)|;
  }

  /** Once the fixes for all unmet criteria have been tried, the loop makes every attempt it has left in vain. */
  lemma {:induction false} TriedInVain(a: Alphabet, criteria: seq<string>, steps: seq<Step>, attempt: nat, max: nat)
    requires Sound(a) && 1 <= attempt <= max
    requires var unmet := Unmet(a, Output(steps), criteria); unmet != [] && AlreadyTried(steps, unmet)
    ensures var e := Attempts(GapsOf(a, criteria), ReplanFor(a, criteria), steps, attempt, max);
            !e.success && e.attempts == max && e.gaps == Prefixed(GAP, Unmet(a, Output(steps), criteria))
  {
    var unmet := Unmet(a, Output(steps), criteria);
    var tried := (s: seq<Step>) => AlreadyTried(s, unmet);
    forall t | tried(t) && GapsOf(a, criteria)(t) == GapsOf(a, criteria)(steps)
      ensures tried(ReplanFor(a, criteria)(t))
      ensures GapsOf(a, criteria)(ReplanFor(a, criteria)(t)) == GapsOf(a, criteria)(steps)
    {
      PrefixedSame(GAP, Unmet(a, Output(t), criteria), unmet);
      StaysTried(a, criteria, t, unmet);
    }
    Stuck(GapsOf(a, criteria), ReplanFor(a, criteria), tried, steps, attempt, max);
  }

  lemma {:induction false} FewerTried(steps: seq<Step>, more: seq<string>, fewer: seq<string>)
    requires AlreadyTried(steps, more) && forall c :: c in fewer ==> c in more
    ensures AlreadyTried(steps, fewer)
  {
  }

  lemma {:induction false} StillUnmet(a: Alphabet, criteria: seq<string>, steps: seq<Step>, gaps: seq<string>)
    requires Sound(a)
    ensures forall c :: c in Unmet(a, Output(Replanned(steps, gaps)), criteria) ==> c in Unmet(a, Output(steps), criteria)
  {
    UnmetAre(a, Output(Replanned(steps, gaps)), criteria);
    UnmetAre(a, Output(steps), criteria);
    forall c | c in criteria && CheckCriterion(a, Output(steps), c)
      ensures CheckCriterion(a, Output(Replanned(steps, gaps)), c)
    {
      MetStaysMet(a, steps, gaps, c);
    }
  }

  /**
   The loop succeeds by its second attempt or not at all: on the first when the plan meets every criterion, on the
   second when the plan with one round of fixes does, and otherwise every allowed attempt is made and the criteria
   unmet on the second are unmet on the last.
   */
  lemma {:induction false} ByTheSecondOrNever(a: Alphabet, criteria: seq<string>, steps: seq<Step>, max: nat)
    requires Sound(a) && max >= 1
    ensures var first := Unmet(a, Output(steps), criteria);
            var second := Unmet(a, Output(Replanned(steps, Prefixed(GAP, first))), criteria);
            var e := RunEnding(a, criteria, steps, max);
            && (first == [] ==> e.success && e.attempts == 1)
            && (first != [] && max >= 2 && second == [] ==> e.success && e.attempts == 2)
            && (first != [] && (max == 1 || second != []) ==>
                  !e.success && e.attempts == max && e.gaps == Prefixed(GAP, if max == 1 then first else second))
  {
    var first := Unmet(a, Output(steps), criteria);
    if first != [] && max >= 2 {
      var next := Replanned(steps, Prefixed(GAP, first));
      var second := Unmet(a, Output(next), criteria);
      assert RunEnding(a, criteria, steps, max) == Attempts(GapsOf(a, criteria), ReplanFor(a, criteria), next, 2, max);
      if second != [] {
        ReplanTries(steps, first);
        StillUnmet(a, criteria, steps, Prefixed(GAP, first));
        FewerTried(next, first, second);
        TriedInVain(a, criteria, next, 2, max);
      }
    }
  }

  /** A criterion with a word of more than three characters ending within its first 21. */
  ghost predicate Quotable(a: Alphabet, criterion: string) {
    exists i: nat, j: nat :: WholeWord(a, criterion, i, j) && j - i > 3 && j <= 21
  }

  lemma {:induction false} QuotableIsMet(a: Alphabet, unmet: seq<string>, steps: seq<Step>, c: string)
    requires c in unmet && Quotable(a, c)
    ensures CheckCriterion(a, Output(Replanned(steps, Prefixed(GAP, unmet))), c)
  {
    ReplanTries(steps, unmet);
    var next := Replanned(steps, Prefixed(GAP, unmet));
    assert Tried(next, c);
    var k :| 0 <= k < |next| && Line(next[k]) == FixLine(GAP + c);
    var i: nat, j: nat :| WholeWord(a, c, i, j) && j - i > 3 && j <= 21;
    FixMeets(a, c, i, j);
    MetWhenLineMeets(a, next, k, c);
  }

  /** Two attempts are enough when every criterion has such a word. */
  lemma {:induction false} QuotableSucceeds(a: Alphabet, criteria: seq<string>, steps: seq<Step>, max: nat)
    requires Sound(a) && max >= 2 && forall c :: c in criteria ==> Quotable(a, c)
    ensures RunEnding(a, criteria, steps, max).success && RunEnding(a, criteria, steps, max).attempts <= 2
  {
    var first := Unmet(a, Output(steps), criteria);
    var next := Replanned(steps, Prefixed(GAP, first));
    var second := Unmet(a, Output(next), criteria);
    ByTheSecondOrNever(a, criteria, steps, max);
    StillUnmet(a, criteria, steps, Prefixed(GAP, first));
    UnmetAre(a, Output(next), criteria);
    if second != [] {
      assert second[0] in second;
      QuotableIsMet(a, first, steps, second[0]);
    }
  }

  lemma {:induction false} NeverEmpty(a: Alphabet, output: string, criteria: seq<string>, c: string)
    requires c in criteria && forall w :: w in Words(a, c) ==> |w| <= 3
    ensures Unmet(a, output, criteria) != []
  {
    UnmetAre(a, output, criteria);
    assert c in Unmet(a, output, criteria);
  }

  /** One criterion without a word of more than three characters makes the loop use up all its attempts. */
  lemma {:induction false} NoLongWordFails(a: Alphabet, criteria: seq<string>, steps: seq<Step>, max: nat, c: string)
    requires Sound(a) && max >= 1 && c in criteria && forall w :: w in Words(a, c) ==> |w| <= 3
    ensures !RunEnding(a, criteria, steps, max).success && RunEnding(a, criteria, steps, max).attempts == max
  {
    var first := Unmet(a, Output(steps), criteria);
    NeverEmpty(a, Output(steps), criteria, c);
    NeverEmpty(a, Output(Replanned(steps, Prefixed(GAP, first))), criteria, c);
    ByTheSecondOrNever(a, criteria, steps, max);
  }

  // ----- the loop itself -----

  datatype RunResult =
    | Finished(success: bool, goal: string, attempts: int, validated: bool, blueprint: Blueprint,
               reflection: Evaluation, gaps: seq<string>)
    | UnboundReflection

  const AGENT_NAME := "AutonomousLoop"

  function Shown(n: int): string {
    if n < 0 then "-" + Str(-n) else Str(n)
  }

  ghost predicate Planned(steps: seq<Step>, base: nat) {
    Numbered(steps, base) && Chain(steps)
  }

  lemma {:induction false} PlanIsPlanned(a: Alphabet, goal: string)
    ensures Planned(PlanFor(a, goal).steps, |PlanFor(a, goal).steps|)
  {
    TableIsChained();
    RowsForIsChained(a, goal, TABLE);
    PlanIsNumbered(RowsFor(a, goal, TABLE));
  }

  /** One attempt: execute, then reflect on the output. */
  method Attempt(a: Alphabet, criteria: seq<string>, blueprint: Blueprint) returns (reflection: Evaluation)
    requires Chain(blueprint.steps)
    ensures reflection.gaps == GapsOf(a, criteria)(blueprint.steps)
    ensures reflection.status == Success <==> reflection.gaps == []
  {
    var output := SimulateExecution(blueprint);
    reflection := Evaluate(a, output.value, criteria);
  }

  lemma {:induction false} StaysPlanned(a: Alphabet, criteria: seq<string>, steps: seq<Step>, base: nat)
    requires Planned(steps, base)
    ensures Planned(ReplanFor(a, criteria)(steps), base)
    ensures ReplanFor(a, criteria)(steps) == Replanned(steps, GapsOf(a, criteria)(steps))
  {
    ReplanKeepsShape(steps, base, GapsOf(a, criteria)(steps));
  }

  /** The loop of `run`. */
  method TryAll(a: Alphabet, criteria: seq<string>, plan: Blueprint, ghost base: nat, maxRetries: nat)
    returns (success: bool, attempts: nat, blueprint: Blueprint, reflection: Evaluation)
    requires maxRetries >= 1 && Planned(plan.steps, base)
    ensures var e := RunEnding(a, criteria, plan.steps, maxRetries);
            success == e.success && attempts == e.attempts && blueprint.steps == e.last && reflection.gaps == e.gaps
    ensures blueprint.goal == plan.goal
    ensures success ==> reflection.gaps == []
    ensures !success ==> attempts == maxRetries
  {
    blueprint, attempts := plan, 1;
    while true
      invariant 1 <= attempts <= maxRetries && Planned(blueprint.steps, base) && blueprint.goal == plan.goal
      invariant RunEnding(a, criteria, plan.steps, maxRetries) ==
                Attempts(GapsOf(a, criteria), ReplanFor(a, criteria), blueprint.steps, attempts, maxRetries)
      decreases maxRetries - attempts
    {
      reflection := Attempt(a, criteria, blueprint);
      if reflection.status == Success {
        success := true;
        return;
      }
      StaysPlanned(a, criteria, blueprint.steps, base);
      blueprint := Replan(blueprint, reflection.gaps);
      if attempts == maxRetries {
        success := false;
        return;
      }
      attempts := attempts + 1;
    }
  }

  class AutonomousLoop {
    const memory: MemoryGraph
    const maxRetries: int
    const alphabet: Alphabet

    ghost predicate Valid()
      reads memory, memory.store
    {
      memory.Valid()
    }

    constructor (m: MemoryGraph, max: int, a: Alphabet)
      requires m.Valid()
      ensures Valid() && memory == m && maxRetries == max && alphabet == a
    {
      memory, maxRetries, alphabet := m, max, a;
    }

    /**
     One outcome is recorded whatever happens. Without any allowed attempt it is a failure, and building the result
     then reads a reflection that was never made.
     */
    method Run(goal: string, criteria: seq<string>) returns (r: RunResult)
      requires Valid()
      modifies memory, memory.store
      ensures Valid()
      ensures memory.runs == old(memory.runs) + [TaskRun(goal, "AutonomousLoop", OutcomeOf(r))]
      ensures OutcomeOf(r) == SUCCESS <==> r.Finished? && r.success
      ensures OutcomeOf(r) == FAILURE <==> r.UnboundReflection? || !r.success
      ensures r.UnboundReflection? <==> maxRetries <= 0
      ensures r.Finished? ==> (r.success <==> r.gaps == []) && (r.success <==> r.validated) && r.goal == goal
      ensures r.Finished? && r.success ==> forall c :: c in criteria ==> CheckCriterion(alphabet, Output(r.blueprint.steps), c)
      ensures r.Finished? && !r.success ==> r.attempts == maxRetries
      ensures Noted(old(memory.store.counter), goal, if r.Finished? then r.attempts else maxRetries)
      ensures r.Finished? ==> EndsAs(r, goal, RunEnding(alphabet, criteria, PlanFor(alphabet, goal).steps, maxRetries))
    {
      r := Pursue(goal, criteria);
      if r.Finished? {
        RunEndingMeans(alphabet, criteria, PlanFor(alphabet, goal).steps, maxRetries);
      }
      RecordOutcome(goal, OutcomeOf(r), if r.Finished? then r.attempts else maxRetries);
    }

    method Pursue(goal: string, criteria: seq<string>) returns (r: RunResult)
      ensures r.UnboundReflection? <==> maxRetries <= 0
      ensures r.Finished? ==> EndsAs(r, goal, RunEnding(alphabet, criteria, PlanFor(alphabet, goal).steps, maxRetries))
    {
      var plan := Plan(alphabet, goal);
      if maxRetries <= 0 {
        return UnboundReflection;
      }
      PlanIsPlanned(alphabet, goal);
      r := Follow(plan, criteria, |plan.steps|);
    }

    method Follow(plan: Blueprint, criteria: seq<string>, ghost base: nat) returns (r: RunResult)
      requires maxRetries >= 1 && Planned(plan.steps, base)
      ensures r.Finished? && EndsAs(r, plan.goal, RunEnding(alphabet, criteria, plan.steps, maxRetries))
    {
      var success, attempts, blueprint, reflection := TryAll(alphabet, criteria, plan, base, maxRetries);
      if success {
        return Finished(true, plan.goal, attempts, true, blueprint, reflection, []);
      }
      r := Finished(false, plan.goal, maxRetries, false, blueprint, reflection, reflection.gaps);
    }

    /** The node of the run says how many attempts were made. */
    ghost predicate Noted(counter: nat, goal: string, attempt: int)
      reads memory.store
    {
      var id := GraphMemory.IdFor(counter + 1);
      id in memory.store.nodes &&
      memory.store.nodes[id] ==
        GraphModel.NodeData(GraphModel.TASK, goal, map["status" := "completed", "retries_used" := if attempt < 0 then "-" + Str(-attempt) else Str(attempt)])
    }

    method RecordOutcome(goal: string, outcome: TaskOutcome, attempt: int)
      requires Valid()
      modifies memory, memory.store
      ensures Valid() && memory.runs == old(memory.runs) + [TaskRun(goal, AGENT_NAME, outcome)]
      ensures Noted(old(memory.store.counter), goal, attempt)
    {
      var metadata := map["retries_used" := Shown(attempt)];
      assert map["status" := "completed"] + metadata == map["status" := "completed", "retries_used" := Shown(attempt)];
      var _ := memory.RecordTask(goal, AGENT_NAME, outcome, metadata);
    }
  }

  function OutcomeOf(r: RunResult): TaskOutcome {
    if r.Finished? && r.success then SUCCESS else FAILURE
  }

  ghost predicate EndsAs(r: RunResult, goal: string, e: Ending<seq<Step>>)
    requires r.Finished?
  {
    && r.success == r.validated == e.success && r.attempts == e.attempts && r.goal == r.blueprint.goal == goal
    && r.blueprint.steps == e.last && r.gaps == e.gaps && r.reflection.gaps == e.gaps
  }
}
