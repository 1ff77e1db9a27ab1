/** Definitions shared by the other modules: optional values, sums over a map, decimal numerals, blanks, hashes and lists as sets. */
module Options {

  datatype Option<+T> = None | Some(value: T)
}

/** Sums of a weight over the entries of a finite map; every counter law of the project is one of these. */
module MapSum {

  ghost function Sum<K, V>(m: map<K, V>, f: V -> real): real
    decreases |m|
  {
    if m == map[] then 0.0 else
      var k :| k in m;
      f(m[k]) + Sum(m - {k}, f)
  }

  /** The sum may be split at any key, not only at the one the definition picks. */
  lemma {:induction false} SumSplit<K, V>(m: map<K, V>, f: V -> real, k: K)
    requires k in m
    ensures Sum(m, f) == f(m[k]) + Sum(m - {k}, f)
    decreases |m|
  {
    var j :| j in m && Sum(m, f) == f(m[j]) + Sum(m - {j}, f);
    if j != k {
      SumSplit(m - {j}, f, k);
      SumSplit(m - {k}, f, j);
      assert m - {j} - {k} == m - {k} - {j};
    }
  }

  lemma {:induction false} SumUpdate<K, V>(m: map<K, V>, f: V -> real, k: K, v: V)
    ensures Sum(m[k := v], f) == Sum(m, f) - (if k in m then f(m[k]) else 0.0) + f(v)
  {
    SumSplit(m[k := v], f, k);
    assert m[k := v] - {k} == m - {k};
    if k in m {
      SumSplit(m, f, k);
    } else {
      assert m - {k} == m;
    }
  }

  lemma {:induction false} SumCongruent<K, V>(m: map<K, V>, n: map<K, V>, f: V -> real)
    requires m.Keys == n.Keys
    requires forall k :: k in m ==> f(m[k]) == f(n[k])
    ensures Sum(m, f) == Sum(n, f)
    decreases |m|
  {
    if m == map[] {
      assert n == map[];
    } else {
      var k :| k in m;
      SumSplit(m, f, k);
      SumSplit(n, f, k);
      SumCongruent(m - {k}, n - {k}, f);
    }
  }
}

/** Python's rendering of a natural number, as used in generated identifiers. */
module Decimal {

  function Digit(d: nat): (c: char)
    requires d < 10
    ensures '0' <= c <= '9'
  {
    '0' + d as char
  }

  predicate AllDigits(s: string) {
    forall i :: 0 <= i < |s| ==> '0' <= s[i] <= '9'
  }

  function Str(n: nat): (s: string)
    ensures s != [] && AllDigits(s)
  {
    if n < 10 then [Digit(n)] else Str(n / 10) + [Digit(n % 10)]
  }

  function Value(s: string): nat
    requires AllDigits(s)
  {
    if s == [] then 0
    else
      10 * Value(s[..|s| - 1]) + (s[|s| - 1] - '0') as nat
  }

  lemma {:induction false} ValueOfStr(n: nat)
    ensures Value(Str(n)) == n
  {
    if n < 10 {
      assert Str(n)[..0] == [];
    } else {
      ValueOfStr(n / 10);
      assert Str(n)[..|Str(n)| - 1] == Str(n / 10);
    }
  }

  /** Distinct numbers have distinct numerals, hence `f"node_{i}"` and `f"step_fix_{i}"` never repeat. */
  lemma {:induction false} StrInjective(m: nat, n: nat)
    requires Str(m) == Str(n)
    ensures m == n
  {
    ValueOfStr(m);
    ValueOfStr(n);
  }

  lemma {:induction false} PrefixedInjective(prefix: string, m: nat, n: nat)
    requires prefix + Str(m) == prefix + Str(n)
    ensures m == n
  {
    assert Str(m) == (prefix + Str(m))[|prefix|..];
    assert Str(n) == (prefix + Str(n))[|prefix|..];
    StrInjective(m, n);
  }
}

/** Python's `strip()`, given which characters are blank. */
module Blanks {

  function StripLeft(space: char -> bool, s: string): string {
    if s != "" && space(s[0]) then StripLeft(space, s[1..]) else s
  }

  function StripRight(space: char -> bool, s: string): string {
    if s != "" && space(s[|s| - 1]) then StripRight(space, s[..|s| - 1]) else s
  }

  function Strip(space: char -> bool, s: string): string {
    StripRight(space, StripLeft(space, s))
  }
}

module Hashing {

  /** No two texts share a hash. */
  ghost predicate Injective(sha: string -> string) {
    forall s, t :: sha(s) == sha(t) ==> s == t
  }
}

/** Lists of strings as sets, and when their sizes agree. */
module Lists {

  ghost predicate DistinctElements(p: seq<string>) {
    forall i, j :: 0 <= i < j < |p| ==> p[i] != p[j]
  }

  function Elements(p: seq<string>): set<string> {
    set x | x in p
  }

  lemma {:induction false} ElementCount(p: seq<string>)
    ensures |Elements(p)| <= |p|
    ensures |Elements(p)| == |p| <==> DistinctElements(p)
  {
    if p != [] {
      var n := |p| - 1;
      ElementCount(p[..n]);
      assert p == p[..n] + [p[n]];
      assert Elements(p) == Elements(p[..n]) + {p[n]};
      if p[n] in p[..n] {
        assert Elements(p) == Elements(p[..n]);
        var i :| 0 <= i < n && p[i] == p[n];
        assert !DistinctElements(p);
      } else {
        assert DistinctElements(p) <==> DistinctElements(p[..n]);
      }
    }
  }

  lemma {:induction false} SubsetCount<T>(a: set<T>, b: set<T>)
    requires a <= b
    ensures |a| <= |b| && (|a| == |b| ==> a == b)
  {
    if a != {} {
      var x :| x in a;
      SubsetCount(a - {x}, b - {x});
    }
  }
}
