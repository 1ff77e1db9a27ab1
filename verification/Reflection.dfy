/** Text operations that the planner and the reflection node share. */
module TextMatch {

  /** Python's per-character lowercase and whitespace test; lowering keeps the length. */
  datatype Alphabet = Alphabet(lower: char -> char, space: char -> bool)

  /** A newline is whitespace, and only a newline is lowered to a newline. */
  ghost predicate Sound(a: Alphabet) {
    a.space('\n') && forall c :: a.lower(c) == '\n' <==> c == '\n'
  }

  function Lower(a: Alphabet, s: string): (r: string)
    ensures |r| == |s| && forall i :: 0 <= i < |s| ==> r[i] == a.lower(s[i])
  {
    seq(|s|, i requires 0 <= i < |s| => a.lower(s[i]))
  }

  predicate OccursAt(s: string, w: string, i: nat) {
    i + |w| <= |s| && s[i..i + |w|] == w
  }

  /** Python's `w in s`. */
  predicate Contains(s: string, w: string) {
    exists i: nat :: i <= |s| && OccursAt(s, w, i)
  }

  lemma {:induction false} OccursHere(s: string, w: string, i: nat)
    requires OccursAt(s, w, i)
    ensures Contains(s, w)
  {
  }

  lemma {:induction false} ContainsInside(before: string, s: string, after: string, w: string)
    requires Contains(s, w)
    ensures Contains(before + s + after, w)
  {
    var i: nat :| i <= |s| && OccursAt(s, w, i);
    assert (before + s + after)[|before| + i..|before| + i + |w|] == s[i..i + |w|];
    OccursHere(before + s + after, w, |before| + i);
  }

  lemma {:induction false} LowerJoins(a: Alphabet, s: string, t: string)
    ensures Lower(a, s + t) == Lower(a, s) + Lower(a, t)
  {
  }

  /** Python's `split()` of a text whose first characters, `word`, have been read: the maximal runs of non-space. */
  function WordsFrom(a: Alphabet, word: string, s: string): seq<string>
    decreases |s|
  {
    if s == [] then (if word == [] then [] else [word])
    else if a.space(s[0]) then (if word == [] then [] else [word]) + WordsFrom(a, [], s[1..])
    else WordsFrom(a, word + [s[0]], s[1..])
  }

  function Words(a: Alphabet, s: string): seq<string> {
    WordsFrom(a, [], s)
  }

  ghost predicate NoSpace(a: Alphabet, s: string) {
    forall i :: 0 <= i < |s| ==> !a.space(s[i])
  }

  lemma {:induction false} WordsHaveNoSpace(a: Alphabet, word: string, s: string, w: string)
    requires NoSpace(a, word) && w in WordsFrom(a, word, s)
    ensures NoSpace(a, w)
    decreases |s|
  {
    if s != [] {
      if !a.space(s[0]) {
        WordsHaveNoSpace(a, word + [s[0]], s[1..], w);
      } else if w in WordsFrom(a, [], s[1..]) {
        WordsHaveNoSpace(a, [], s[1..], w);
      }
    }
  }

  /** The characters from `i` to `j` are a whole word of `s`. */
  ghost predicate WholeWord(a: Alphabet, s: string, i: nat, j: nat) {
    && i < j <= |s| && NoSpace(a, s[i..j])
    && (i > 0 ==> a.space(s[i - 1])) && (j < |s| ==> a.space(s[j]))
  }

  lemma {:induction false} WholeWordIsSplit(a: Alphabet, word: string, s: string, i: nat, j: nat)
    requires WholeWord(a, s, i, j)
    ensures (if i == 0 then word + s[..j] else s[i..j]) in WordsFrom(a, word, s)
    decreases |s|
  {
    assert s[i..j][0] == s[i];
    if i > 0 {
      assert forall k :: i - 1 <= k < j - 1 ==> s[1..][k] == s[k + 1];
      assert s[1..][i - 1..j - 1] == s[i..j];
      WholeWordIsSplit(a, if a.space(s[0]) then [] else word + [s[0]], s[1..], i - 1, j - 1);
      if i == 1 {
        assert [] + s[1..][..j - 1] == s[i..j];
      }
    } else if j == 1 {
      FirstWordEnds(a, word + [s[0]], s[1..]);
      assert s[..1] == [s[0]];
    } else {
      assert s[1..][0..j - 1] == s[1..j];
      assert forall k :: 1 <= k < j ==> s[0..j][k] == s[k];
      WholeWordIsSplit(a, word + [s[0]], s[1..], 0, j - 1);
      assert word + [s[0]] + s[1..][..j - 1] == word + s[..j];
    }
  }

  lemma {:induction false} FirstWordEnds(a: Alphabet, word: string, s: string)
    requires word != [] && (s != [] ==> a.space(s[0]))
    ensures word in WordsFrom(a, word, s)
  {
    if s != [] {
      assert WordsFrom(a, word, s)[0] == word;
    }
  }
}

/** Evaluating an output against success criteria. */
module Reflection {
  import opened TextMatch

  datatype Status = Success | Failure

  datatype Evaluation = Evaluation(status: Status, gaps: seq<string>, suggestions: seq<string>, confidence: real)

  predicate CheckCriterion(a: Alphabet, output: string, criterion: string) {
    exists w {:trigger w in Words(a, criterion)} :: w in Words(a, criterion) && |w| > 3 && Contains(Lower(a, output), Lower(a, w))
  }

  /** The criteria that the output does not meet, in order. */
  function Unmet(a: Alphabet, output: string, criteria: seq<string>): seq<string> {
    if criteria == [] then []
    else
      var n := |criteria| - 1;
      Unmet(a, output, criteria[..n]) + if CheckCriterion(a, output, criteria[n]) then [] else [criteria[n]]
  }

  lemma {:induction false} UnmetAre(a: Alphabet, output: string, criteria: seq<string>)
    ensures forall c :: c in Unmet(a, output, criteria) <==> c in criteria && !CheckCriterion(a, output, c)
  {
    if criteria != [] {
      var n := |criteria| - 1;
      UnmetAre(a, output, criteria[..n]);
      assert criteria == criteria[..n] + [criteria[n]];
    }
  }

  function Prefixed(prefix: string, ss: seq<string>): (r: seq<string>)
    ensures |r| == |ss| && forall i :: 0 <= i < |ss| ==> r[i] == prefix + ss[i]
  {
    seq(|ss|, i requires 0 <= i < |ss| => prefix + ss[i])
  }

  const GAP := "Missing criterion: "
  const SUGGESTION := "Add implementation for: "

  lemma {:induction false} PrefixedMore(prefix: string, ss: seq<string>, s: string)
    ensures Prefixed(prefix, ss + [s]) == Prefixed(prefix, ss) + [prefix + s]
  {
  }

  method Missing(a: Alphabet, output: string, criteria: seq<string>) returns (gaps: seq<string>, suggestions: seq<string>)
    ensures gaps == Prefixed(GAP, Unmet(a, output, criteria))
    ensures suggestions == Prefixed(SUGGESTION, Unmet(a, output, criteria))
  {
    gaps, suggestions := [], [];
    ghost var unmet := [];
    for i := 0 to |criteria|
      invariant unmet == Unmet(a, output, criteria[..i])
      invariant gaps == Prefixed(GAP, unmet) && suggestions == Prefixed(SUGGESTION, unmet)
    {
      assert criteria[..i + 1][..i] == criteria[..i];
      if !CheckCriterion(a, output, criteria[i]) {
        PrefixedMore(GAP, unmet, criteria[i]);
        PrefixedMore(SUGGESTION, unmet, criteria[i]);
        gaps := gaps + [GAP + criteria[i]];
        suggestions := suggestions + [SUGGESTION + criteria[i]];
        unmet := unmet + [criteria[i]];
      }
    }
    assert criteria[..|criteria|] == criteria;
  }

  /** The status is success when every criterion is met, and the confidence drops with each gap but not below one half. */
  method Evaluate(a: Alphabet, output: string, criteria: seq<string>) returns (r: Evaluation)
    ensures r.gaps == Prefixed(GAP, Unmet(a, output, criteria))
    ensures r.suggestions == Prefixed(SUGGESTION, Unmet(a, output, criteria))
    ensures r.status == Success <==> forall c :: c in criteria ==> CheckCriterion(a, output, c)
    ensures r.status == Success <==> r.gaps == []
    ensures r.status == Success ==> r.confidence == 1.0
    ensures r.status == Failure ==> r.confidence == if |r.gaps| == 1 then 0.8 else if |r.gaps| == 2 then 0.6 else 0.5
    ensures forall i :: 0 <= i < |r.gaps| ==>
              exists c :: c in criteria && r.gaps[i] == "Missing criterion: " + c && r.suggestions[i] == "Add implementation for: " + c
  {
    var gaps, suggestions := Missing(a, output, criteria);
    UnmetAre(a, output, criteria);
    if gaps != [] {
      assert Unmet(a, output, criteria)[0] in Unmet(a, output, criteria);
      return Evaluation(Failure, gaps, suggestions, Confidence(|gaps|));
    }
    assert forall c :: c in criteria ==> c !in Unmet(a, output, criteria);
    r := Evaluation(Success, [], [], 1.0);
  }

  function Confidence(n: nat): (c: real)
    requires n > 0
    ensures c == if n == 1 then 0.8 else if n == 2 then 0.6 else 0.5
  {
    var c := 1.0 - n as real * 0.2;
    if c > 0.5 then c else 0.5
  }
}
