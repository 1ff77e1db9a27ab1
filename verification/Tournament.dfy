/** Elo updates and round-robin tournaments. */
module EloTable {
  import opened Options
  import opened MapSum

  datatype Config = Config(numRounds: int, kFactor: real, initial: real, tieThreshold: real)

  datatype Match = Match(agentA: string, agentB: string, winner: Option<string>, scoreA: int, scoreB: int, rounds: int)

  /** What the engine keeps for an agent: its rating and how its matches ended. */
  datatype Record = Record(elo: real, wins: nat, losses: nat, ties: nat)

  type Table = map<string, Record>

  function Rating(r: Record): real { r.elo }

  function Wins(r: Record): real { r.wins as real }

  function Losses(r: Record): real { r.losses as real }

  function Games(r: Record): nat { r.wins + r.losses + r.ties }

  /** The product, by repeated addition. */
  function Times(r: real, n: nat): real {
    if n == 0 then 0.0 else Times(r, n - 1) + r
  }

  lemma {:induction false} TimesIsProduct(r: real, n: nat)
    ensures Times(r, n) == r * n as real
  {
    if n > 0 {
      TimesIsProduct(r, n - 1);
    }
  }

  /**
   Every win is somebody's loss, and ratings average the initial one but for what matches of an agent against itself have
   cost: each `loss`, and there were `selfs`.
   */
  ghost predicate Balanced(t: Table, initial: real, loss: real, selfs: nat) {
    Sum(t, Rating) == Times(initial, |t|) - Times(loss, selfs) && Sum(t, Wins) == Sum(t, Losses)
  }

  function WithAgent(t: Table, id: string, initial: real): Table {
    if id in t then t else t[id := Record(initial, 0, 0, 0)]
  }

  lemma {:induction false} AgentKeepsBalance(t: Table, id: string, initial: real)
    ensures var u := WithAgent(t, id, initial);
            && Sum(u, Rating) - Times(initial, |u|) == Sum(t, Rating) - Times(initial, |t|)
            && Sum(u, Wins) - Sum(u, Losses) == Sum(t, Wins) - Sum(t, Losses)
  {
    if id !in t {
      var r := Record(initial, 0, 0, 0);
      SumUpdate(t, Rating, id, r);
      SumUpdate(t, Wins, id, r);
      SumUpdate(t, Losses, id, r);
      assert |t[id := r]| == |t| + 1;
    }
  }

  /** The rating after a match in which `score` was made and `expected` was to be expected. */
  function NewRating(rating: real, k: real, score: real, expected: real): real {
    rating + k * (score - expected)
  }

  /** What a match does to the record of one side, by the score it made. */
  function Updated(r: Record, score: real, rating: real): Record {
    if score == 0.5 then r.(elo := rating, ties := r.ties + 1)
    else if score == 1.0 then r.(elo := rating, wins := r.wins + 1)
    else r.(elo := rating, losses := r.losses + 1)
  }

  /** The score of the first side. */
  function ScoreOf(winner: Option<string>, a: string): real {
    if winner.None? then 0.5 else if winner.value == a then 1.0 else 0.0
  }

  predicate Playable(t: Table, winner: Option<string>, a: string, b: string) {
    a in t && b in t && winner in {None, Some(a), Some(b)}
  }

  /** The table after a match, the second side written last; `expected` is the expected score of the first. */
  function AfterMatch(t: Table, k: real, winner: Option<string>, a: string, b: string, expected: real): Table
    requires Playable(t, winner, a, b)
  {
    var score := ScoreOf(winner, a);
    var t' := t[a := Updated(t[a], score, NewRating(t[a].elo, k, score, expected))];
    t'[b := Updated(t'[b], 1.0 - score, NewRating(t[b].elo, k, 1.0 - score, 1.0 - expected))]
  }

  /** A win is one more win for the winner and one more loss for the other; a tie is one more tie for both. */
  lemma {:induction false} MatchCounts(
    t: Table, k: real, winner: Option<string>, a: string, b: string, expected: real, u: Table)
    requires Playable(t, winner, a, b) && a != b && u == AfterMatch(t, k, winner, a, b, expected)
    ensures u.Keys == t.Keys
    ensures winner == Some(a) ==>
              u[a].wins == t[a].wins + 1 && u[a].losses == t[a].losses && u[a].ties == t[a].ties &&
              u[b].losses == t[b].losses + 1 && u[b].wins == t[b].wins && u[b].ties == t[b].ties
    ensures winner == Some(b) ==>
              u[b].wins == t[b].wins + 1 && u[b].losses == t[b].losses && u[b].ties == t[b].ties &&
              u[a].losses == t[a].losses + 1 && u[a].wins == t[a].wins && u[a].ties == t[a].ties
    ensures winner == None ==>
              u[a].ties == t[a].ties + 1 && u[a].wins == t[a].wins && u[a].losses == t[a].losses &&
              u[b].ties == t[b].ties + 1 && u[b].wins == t[b].wins && u[b].losses == t[b].losses
    ensures forall id :: id in t && id != a && id != b ==> u[id] == t[id]
  {
    match winner
    case None =>
    case Some(w) => if w == a { } else { }
  }

  lemma {:induction false} SignOfProduct(k: real, d: real)
    requires k > 0.0
    ensures d > 0.0 ==> k * d > 0.0
    ensures d < 0.0 ==> k * d < 0.0
  {
    if d < 0.0 {
      assert k * (-d) > 0.0;
      assert k * d == -(k * (-d));
    }
  }

  /** The ratings move by the K factor times what the score exceeds its expectation; whoever wins rises, whoever loses falls. */
  lemma {:induction false} MatchRatings(
    t: Table, k: real, winner: Option<string>, a: string, b: string, expected: real, u: Table)
    requires Playable(t, winner, a, b) && a != b && u == AfterMatch(t, k, winner, a, b, expected)
    ensures a in u && b in u
    ensures winner == Some(a) ==> u[a].elo == t[a].elo + k * (1.0 - expected) && u[b].elo == t[b].elo - k * (1.0 - expected)
    ensures winner == Some(b) ==> u[a].elo == t[a].elo - k * expected && u[b].elo == t[b].elo + k * expected
    ensures winner == None ==> u[a].elo == t[a].elo + k * (0.5 - expected) && u[b].elo == t[b].elo - k * (0.5 - expected)
    ensures k > 0.0 && 0.0 < expected < 1.0 && winner == Some(a) ==> u[a].elo > t[a].elo && u[b].elo < t[b].elo
    ensures k > 0.0 && 0.0 < expected < 1.0 && winner == Some(b) ==> u[a].elo < t[a].elo && u[b].elo > t[b].elo
  {
    var score := ScoreOf(winner, a);
    PointsAddUp(t[a].elo, t[b].elo, k, score, expected);
    assert u[a].elo == t[a].elo + k * (score - expected);
    assert u[b].elo == t[b].elo - k * (score - expected);
    assert k * (0.0 - expected) == -(k * expected);
    if k > 0.0 {
      SignOfProduct(k, 1.0 - expected);
      SignOfProduct(k, expected);
    }
  }

  lemma {:induction false} PointsAddUp(ra: real, rb: real, k: real, score: real, expected: real)
    ensures NewRating(ra, k, score, expected) + NewRating(rb, k, 1.0 - score, 1.0 - expected) == ra + rb
  {
    assert k * (score - expected) + k * ((1.0 - score) - (1.0 - expected)) == 0.0;
  }

  lemma {:induction false} SumOfTwo(t: Table, f: Record -> real, a: string, b: string, ra: Record, rb: Record)
    requires a in t && b in t && a != b
    ensures Sum(t[a := ra][b := rb], f) == Sum(t, f) - f(t[a]) - f(t[b]) + f(ra) + f(rb)
    ensures |t[a := ra][b := rb]| == |t|
  {
    SumUpdate(t, f, a, ra);
    SumUpdate(t[a := ra], f, b, rb);
    assert t[a := ra][b := rb].Keys == t.Keys;
    assert |t[a := ra][b := rb].Keys| == |t.Keys|;
  }

  /** A match between two different agents moves rating points and never makes any. */
  lemma {:induction false} MatchKeepsTotals(t: Table, k: real, winner: Option<string>, a: string, b: string, expected: real)
    requires Playable(t, winner, a, b) && a != b
    ensures var u := AfterMatch(t, k, winner, a, b, expected);
            && u.Keys == t.Keys && Sum(u, Rating) == Sum(t, Rating)
            && Sum(u, Wins) - Sum(u, Losses) == Sum(t, Wins) - Sum(t, Losses)
  {
    var score := ScoreOf(winner, a);
    var ra := Updated(t[a], score, NewRating(t[a].elo, k, score, expected));
    var rb := Updated(t[b], 1.0 - score, NewRating(t[b].elo, k, 1.0 - score, 1.0 - expected));
    PointsAddUp(t[a].elo, t[b].elo, k, score, expected);
    SumOfTwo(t, Rating, a, b, ra, rb);
    SumOfTwo(t, Wins, a, b, ra, rb);
    SumOfTwo(t, Losses, a, b, ra, rb);
  }

  /** A match of an agent against itself counts as two games, and changes the total by how much `expected` beats the score. */
  lemma {:induction false} SelfMatchTotals(t: Table, k: real, winner: Option<string>, a: string, expected: real)
    requires Playable(t, winner, a, a)
    ensures var u := AfterMatch(t, k, winner, a, a, expected);
            && u.Keys == t.Keys && Sum(u, Rating) == Sum(t, Rating) + k * (expected - ScoreOf(winner, a))
            && Sum(u, Wins) - Sum(u, Losses) == Sum(t, Wins) - Sum(t, Losses)
            && Games(u[a]) == Games(t[a]) + 2
  {
    var score := ScoreOf(winner, a);
    var t' := t[a := Updated(t[a], score, NewRating(t[a].elo, k, score, expected))];
    var r := Updated(t'[a], 1.0 - score, NewRating(t[a].elo, k, 1.0 - score, 1.0 - expected));
    assert t'[a := r] == t[a := r];
    SumUpdate(t, Rating, a, r);
    SumUpdate(t, Wins, a, r);
    SumUpdate(t, Losses, a, r);
    assert (1.0 - score) - (1.0 - expected) == expected - score;
  }

  // ----- who wins -----

  function Distance(x: int, y: int): real {
    if x >= y then (x - y) as real else (y - x) as real
  }

  function WinnerOf(c: Config, a: string, b: string, scoreA: int, scoreB: int): Option<string> {
    if Distance(scoreA, scoreB) < c.tieThreshold * c.numRounds as real then None
    else if scoreA > scoreB then Some(a) else Some(b)
  }

  predicate TiesPossible(c: Config) {
    c.tieThreshold * c.numRounds as real > 0.0
  }

  /** What a match of an agent against itself costs in rating, when equals expect half a point. */
  function SelfLoss(c: Config): real {
    if TiesPossible(c) then 0.0 else c.kFactor * 0.5
  }

  /** An agent that meets itself ties exactly when ties are possible; otherwise it wins, and loses what a win is worth. */
  lemma {:induction false} SelfMatchCosts(t: Table, c: Config, a: string, score: int)
    requires a in t
    ensures var winner := WinnerOf(c, a, a, score, score);
            && (winner == None <==> TiesPossible(c))
            && Sum(AfterMatch(t, c.kFactor, winner, a, a, 0.5), Rating) == Sum(t, Rating) - SelfLoss(c)
  {
    SelfMatchTotals(t, c.kFactor, WinnerOf(c, a, a, score, score), a, 0.5);
  }
}

/** The pairs of a round robin. */
module RoundRobin {

  /** The pairs of agent `i` with the agents after it, up to `j`. */
  function Row(i: nat, j: nat): (ps: seq<(nat, nat)>)
    requires i < j
    ensures forall k :: 0 <= k < |ps| ==> ps[k].0 == i < ps[k].1 < j
  {
    if j == i + 1 then [] else Row(i, j - 1) + [(i, j - 1)]
  }

  /** All pairs of `n` agents whose first is before `i`. */
  function Rows(n: nat, i: nat): (ps: seq<(nat, nat)>)
    requires i <= n
    ensures forall k :: 0 <= k < |ps| ==> ps[k].0 < i && ps[k].0 < ps[k].1 < n
  {
    if i == 0 then [] else Rows(n, i - 1) + Row(i - 1, n)
  }

  /** How often a pair occurs. */
  function Occurs(ps: seq<(nat, nat)>, p: nat, q: nat): nat {
    if ps == [] then 0
    else Occurs(ps[..|ps| - 1], p, q) + if ps[|ps| - 1] == (p, q) then 1 else 0
  }

  lemma {:induction false} OccursSomewhere(ps: seq<(nat, nat)>, p: nat, q: nat) returns (k: nat)
    requires Occurs(ps, p, q) > 0
    ensures k < |ps| && ps[k] == (p, q)
  {
    k := |ps| - 1;
    if ps[k] != (p, q) {
      k := OccursSomewhere(ps[..k], p, q);
    }
  }

  lemma {:induction false} OccursJoined(a: seq<(nat, nat)>, b: seq<(nat, nat)>, p: nat, q: nat)
    ensures Occurs(a + b, p, q) == Occurs(a, p, q) + Occurs(b, p, q)
  {
    if b == [] {
      assert a + b == a;
    } else {
      assert (a + b)[..|a + b| - 1] == a + b[..|b| - 1];
      OccursJoined(a, b[..|b| - 1], p, q);
    }
  }

  lemma {:induction false} RowCounts(i: nat, j: nat, p: nat, q: nat, row: seq<(nat, nat)>)
    requires i < j && row == Row(i, j)
    ensures Occurs(row, p, q) == if p == i < q < j then 1 else 0
    ensures |row| == j - i - 1
  {
    if j > i + 1 {
      var before := Row(i, j - 1);
      RowCounts(i, j - 1, p, q, before);
      OccursJoined(before, [(i, j - 1)], p, q);
    }
  }

  lemma {:induction false} RowsCount(n: nat, i: nat, p: nat, q: nat, pairs: seq<(nat, nat)>)
    requires i <= n && q < n && pairs == Rows(n, i)
    ensures Occurs(pairs, p, q) == if p < q && p < i then 1 else 0
  {
    if i > 0 {
      var before, row := Rows(n, i - 1), Row(i - 1, n);
      RowsCount(n, i - 1, p, q, before);
      RowCounts(i - 1, n, p, q, row);
      OccursJoined(before, row, p, q);
      OneRowMore(Occurs(before, p, q), Occurs(row, p, q), n, i, p, q);
    }
  }

  lemma {:induction false} OneRowMore(before: nat, row: nat, n: nat, i: nat, p: nat, q: nat)
    requires 0 < i <= n && q < n && before == (if p < q && p < i - 1 then 1 else 0) && row == if p == i - 1 < q < n then 1 else 0
    ensures before + row == if p < q && p < i then 1 else 0
  {
  }

  /** The matches of the first `i` agents, counted with each other once. */
  function PairCount(n: nat, i: nat): nat
    requires i <= n
  {
    if i == 0 then 0 else PairCount(n, i - 1) + (n - i)
  }

  lemma {:induction false} RowsSize(n: nat, i: nat)
    requires i <= n
    ensures |Rows(n, i)| == PairCount(n, i)
  {
    if i > 0 {
      var before, row := Rows(n, i - 1), Row(i - 1, n);
      RowsSize(n, i - 1);
      RowCounts(i - 1, n, 0, 0, row);
      assert |before + row| == |before| + |row|;
    }
  }

  lemma {:induction false} NextProduct(n: int, i: int)
    ensures i * (2 * n - i - 1) == (i - 1) * (2 * n - (i - 1) - 1) + 2 * (n - i)
  {
  }

  lemma {:induction false} PairCountIs(n: nat, i: nat)
    requires i <= n
    ensures 2 * PairCount(n, i) == i * (2 * n - i - 1)
  {
    if i > 0 {
      PairCountIs(n, i - 1);
      NextProduct(n, i);
    }
  }

  /** Every two agents meet once, the earlier one first, and there are n(n-1)/2 matches. */
  lemma {:induction false} EveryPairOnce(n: nat, p: nat, q: nat)
    requires p < n && q < n
    ensures Occurs(Rows(n, n), p, q) == if p < q then 1 else 0
    ensures 2 * |Rows(n, n)| == n * (n - 1)
  {
    RowsCount(n, n, p, q, Rows(n, n));
    RowsSize(n, n);
    PairCountIs(n, n);
  }

  /** How many of the pairs played before `(i, j)` the agent `k` is in. */
  function PlayedBy(n: nat, i: nat, j: nat, k: nat): int {
    if k < i then n - 1 else if k == i then j - 1 else if k < j then i + 1 else i
  }
}

module Tournament {
  import opened Options
  import opened MapSum
  import opened EloTable
  import opened RoundRobin

  datatype Agent = Agent(identity: string, bias: real)

  function Ids(agents: seq<Agent>): (ids: seq<string>)
    ensures |ids| == |agents| && forall i :: 0 <= i < |agents| ==> ids[i] == agents[i].identity
  {
    seq(|agents|, i requires 0 <= i < |agents| => agents[i].identity)
  }

  function Named(ids: seq<string>, ps: seq<(nat, nat)>): (names: seq<(string, string)>)
    requires forall i :: 0 <= i < |ps| ==> ps[i].0 < |ids| && ps[i].1 < |ids|
    ensures |names| == |ps| && forall i :: 0 <= i < |ps| ==> names[i] == (ids[ps[i].0], ids[ps[i].1])
  {
    seq(|ps|, i requires 0 <= i < |ps| => (ids[ps[i].0], ids[ps[i].1]))
  }

  function PairsOf(ms: seq<Match>): (ps: seq<(string, string)>)
    ensures |ps| == |ms| && forall i :: 0 <= i < |ms| ==> ps[i] == (ms[i].agentA, ms[i].agentB)
  {
    seq(|ms|, i requires 0 <= i < |ms| => (ms[i].agentA, ms[i].agentB))
  }

  lemma {:induction false} NamedJoins(ids: seq<string>, a: seq<(nat, nat)>, b: seq<(nat, nat)>)
    requires forall i :: 0 <= i < |a| ==> a[i].0 < |ids| && a[i].1 < |ids|
    requires forall i :: 0 <= i < |b| ==> b[i].0 < |ids| && b[i].1 < |ids|
    ensures forall i :: 0 <= i < |a + b| ==> (a + b)[i].0 < |ids| && (a + b)[i].1 < |ids|
    ensures Named(ids, a + b) == Named(ids, a) + Named(ids, b)
  {
  }

  lemma {:induction false} NextRows(ids: seq<string>, i: nat)
    requires i < |ids|
    ensures Named(ids, Rows(|ids|, i)) + Named(ids, Row(i, |ids|)) == Named(ids, Rows(|ids|, i + 1))
  {
    NamedJoins(ids, Rows(|ids|, i), Row(i, |ids|));
  }

  ghost predicate Distinct(ids: seq<string>) {
    forall i, j :: 0 <= i < j < |ids| ==> ids[i] != ids[j]
  }

  /** How many matches have one agent on both sides. */
  function SelfMatches(ps: seq<(string, string)>): nat {
    if ps == [] then 0
    else SelfMatches(ps[..|ps| - 1]) + if ps[|ps| - 1].0 == ps[|ps| - 1].1 then 1 else 0
  }

  lemma {:induction false} SelfMatchesJoin(ps: seq<(string, string)>, more: seq<(string, string)>)
    ensures SelfMatches(ps + more) == SelfMatches(ps) + SelfMatches(more)
  {
    if more == [] {
      assert ps + more == ps;
    } else {
      assert (ps + more)[..|ps + more| - 1] == ps + more[..|more| - 1];
      SelfMatchesJoin(ps, more[..|more| - 1]);
    }
  }

  lemma {:induction false} NoSelfMatches(ps: seq<(string, string)>)
    ensures SelfMatches(ps) == 0 <==> forall i :: 0 <= i < |ps| ==> ps[i].0 != ps[i].1
  {
    if ps != [] {
      NoSelfMatches(ps[..|ps| - 1]);
    }
  }

  /** A round robin has no agent meet itself if and only if all its agents are distinct. */
  lemma {:induction false} DistinctNeverMeet(ids: seq<string>, ps: seq<(nat, nat)>)
    requires ps == Rows(|ids|, |ids|)
    ensures SelfMatches(Named(ids, ps)) == 0 <==> Distinct(ids)
  {
    var names := Named(ids, ps);
    NoSelfMatches(names);
    if SelfMatches(names) == 0 {
      forall i, j | 0 <= i < j < |ids| ensures ids[i] != ids[j] {
        EveryPairOnce(|ids|, i, j);
        var k := OccursSomewhere(ps, i, j);
        assert names[k].0 == ids[i] && names[k].1 == ids[j];
      }
    }
  }

  lemma {:induction false} NewSelfMatches(before: seq<(string, string)>, ids: seq<string>, after: seq<(string, string)>)
    requires after == before + Named(ids, Rows(|ids|, |ids|))
    ensures SelfMatches(after) == SelfMatches(before) <==> Distinct(ids)
  {
    SelfMatchesJoin(before, Named(ids, Rows(|ids|, |ids|)));
    DistinctNeverMeet(ids, Rows(|ids|, |ids|));
  }

  /** The table once all agents of the list have entered. */
  function Joined(t: Table, ids: seq<string>, initial: real): Table {
    if ids == [] then t else WithAgent(Joined(t, ids[..|ids| - 1], initial), ids[|ids| - 1], initial)
  }

  lemma {:induction false} JoinedHas(t: Table, ids: seq<string>, initial: real)
    ensures forall k :: 0 <= k < |ids| ==> ids[k] in Joined(t, ids, initial)
    ensures forall id :: id in t ==> id in Joined(t, ids, initial) && Joined(t, ids, initial)[id] == t[id]
    ensures forall id :: id in Joined(t, ids, initial) ==> id in t || (id in ids && Games(Joined(t, ids, initial)[id]) == 0)
  {
    if ids != [] {
      var n := |ids| - 1;
      JoinedHas(t, ids[..n], initial);
      assert ids == ids[..n] + [ids[n]];
    }
  }

  /** The games of a match: one for each side, two when it is the same agent. */
  ghost predicate Gained(t: Table, u: Table, a: string, b: string, id: string) {
    id in t && id in u ==> Games(u[id]) == Games(t[id]) + (if id == a then 1 else 0) + (if id == b then 1 else 0)
  }

  ghost predicate OneGameEach(t: Table, u: Table, a: string, b: string) {
    u.Keys == t.Keys && forall id {:trigger Gained(t, u, a, b, id)} :: Gained(t, u, a, b, id)
  }

  /** The pairs played before `(i, j)` that the first `m` places of the list account for, those of `id` only. */
  function Tally(ids: seq<string>, i: nat, j: nat, id: string, m: nat): int
    requires m <= |ids|
  {
    if m == 0 then 0
    else
      Tally(ids, i, j, id, m - 1) + if ids[m - 1] == id then PlayedBy(|ids|, i, j, m - 1) else 0
  }

  lemma {:induction false} TallyPair(ids: seq<string>, i: nat, j: nat, id: string, m: nat)
    requires m <= |ids| && i < j < |ids|
    ensures Tally(ids, i, j + 1, id, m) ==
            Tally(ids, i, j, id, m) + (if i < m && ids[i] == id then 1 else 0) + (if j < m && ids[j] == id then 1 else 0)
  {
    if m > 0 {
      TallyPair(ids, i, j, id, m - 1);
    }
  }

  lemma {:induction false} TallyRow(ids: seq<string>, i: nat, id: string, m: nat)
    requires m <= |ids| && i < |ids|
    ensures Tally(ids, i + 1, i + 2, id, m) == Tally(ids, i, |ids|, id, m)
  {
    if m > 0 {
      TallyRow(ids, i, id, m - 1);
    }
  }

  lemma {:induction false} TallyNone(ids: seq<string>, id: string, m: nat)
    requires m <= |ids|
    ensures Tally(ids, 0, 1, id, m) == 0
  {
    if m > 0 {
      TallyNone(ids, id, m - 1);
    }
  }

  function Copies(ids: seq<string>, id: string): nat {
    if ids == [] then 0 else Copies(ids[..|ids| - 1], id) + if ids[|ids| - 1] == id then 1 else 0
  }

  lemma {:induction false} TallyAll(ids: seq<string>, id: string, m: nat)
    requires m <= |ids|
    ensures Tally(ids, |ids|, |ids| + 1, id, m) == Copies(ids[..m], id) * (|ids| - 1)
  {
    if m > 0 {
      TallyAll(ids, id, m - 1);
      assert ids[..m][..m - 1] == ids[..m - 1];
      if ids[m - 1] == id {
        OneMore(Copies(ids[..m - 1], id), |ids| - 1);
      }
    }
  }

  lemma {:induction false} OneMore(c: int, n: int)
    ensures (c + 1) * n == c * n + n
  {
  }

  ghost predicate OnSchedule(before: Table, now: Table, ids: seq<string>, i: nat, j: nat, id: string) {
    id in now && id in before ==> Games(now[id]) == Games(before[id]) + Tally(ids, i, j, id, |ids|)
  }

  /** Before the match of places `i` and `j`, every agent has played the pairs of its places so far, and others nothing. */
  ghost predicate Scheduled(before: Table, now: Table, ids: seq<string>, i: nat, j: nat) {
    && now.Keys == before.Keys && (forall k :: 0 <= k < |ids| ==> ids[k] in before)
    && (forall id {:trigger OnSchedule(before, now, ids, i, j, id)} :: OnSchedule(before, now, ids, i, j, id))
  }

  lemma {:induction false} PairPlayed(before: Table, now: Table, after: Table, ids: seq<string>, i: nat, j: nat)
    requires Scheduled(before, now, ids, i, j) && i < j < |ids|
    requires OneGameEach(now, after, ids[i], ids[j])
    ensures Scheduled(before, after, ids, i, j + 1)
  {
    var next := j + 1;
    forall id ensures OnSchedule(before, after, ids, i, next, id) {
      assert OnSchedule(before, now, ids, i, j, id) && Gained(now, after, ids[i], ids[j], id);
      TallyPair(ids, i, j, id, |ids|);
    }
  }

  lemma {:induction false} RowPlayed(before: Table, now: Table, ids: seq<string>, i: nat)
    requires i < |ids| && Scheduled(before, now, ids, i, |ids|)
    ensures Scheduled(before, now, ids, i + 1, i + 2)
  {
    var next, after := i + 1, i + 2;
    forall id ensures OnSchedule(before, now, ids, next, after, id) {
      assert OnSchedule(before, now, ids, i, |ids|, id);
      TallyRow(ids, i, id, |ids|);
    }
  }

  lemma {:induction false} NonePlayed(t: Table, ids: seq<string>)
    requires forall k :: 0 <= k < |ids| ==> ids[k] in t
    ensures Scheduled(t, t, ids, 0, 1)
  {
    var first, second := 0, 1;
    forall id ensures OnSchedule(t, t, ids, first, second, id) {
      TallyNone(ids, id, |ids|);
    }
  }

  ghost predicate Played(before: Table, now: Table, ids: seq<string>, id: string) {
    id in now && id in before ==> Games(now[id]) == Games(before[id]) + Copies(ids, id) * (|ids| - 1)
  }

  /** Every agent has n - 1 games more for each time it is listed, and others none. */
  ghost predicate AllPlayed(before: Table, now: Table, ids: seq<string>) {
    now.Keys == before.Keys && forall id {:trigger Played(before, now, ids, id)} :: Played(before, now, ids, id)
  }

  lemma {:induction false} EveryonePlayed(before: Table, now: Table, ids: seq<string>)
    requires Scheduled(before, now, ids, |ids|, |ids| + 1)
    ensures AllPlayed(before, now, ids)
  {
    var n, next := |ids|, |ids| + 1;
    forall id ensures Played(before, now, ids, id) {
      assert OnSchedule(before, now, ids, n, next, id);
      TallyAll(ids, id, |ids|);
      assert ids[..|ids|] == ids;
    }
  }

  /** In a list of distinct agents each is listed once. */
  lemma {:induction false} DistinctOnce(ids: seq<string>, id: string)
    requires Distinct(ids)
    ensures Copies(ids, id) == if id in ids then 1 else 0
  {
    if ids != [] {
      var n := |ids| - 1;
      DistinctOnce(ids[..n], id);
      assert ids == ids[..n] + [ids[n]];
    }
  }

  /** Agent `i` has played those before `j`. */
  ghost predicate RowProgress(
    entered: Table, now: Table, start: seq<(string, string)>, played: seq<(string, string)>, ids: seq<string>, i: nat, j: nat)
  {
    i < j <= |ids| && Scheduled(entered, now, ids, i, j) && played == start + Named(ids, Row(i, j))
  }

  lemma {:induction false} NextRowProgress(
    entered: Table, before: Table, now: Table, start: seq<(string, string)>, played: seq<(string, string)>,
    more: seq<(string, string)>, ids: seq<string>, i: nat, j: nat)
    requires RowProgress(entered, before, start, played, ids, i, j) && j < |ids|
    requires OneGameEach(before, now, ids[i], ids[j]) && more == played + [(ids[i], ids[j])]
    ensures RowProgress(entered, now, start, more, ids, i, j + 1)
  {
    PairPlayed(entered, before, now, ids, i, j);
    NamedJoins(ids, Row(i, j), [(i, j)]);
    assert Named(ids, [(i, j)]) == [(ids[i], ids[j])];
  }

  /** The rows of the first `i` agents have been played. */
  ghost predicate Progress(entered: Table, now: Table, start: seq<(string, string)>, played: seq<(string, string)>, ids: seq<string>, i: nat) {
    i <= |ids| && Scheduled(entered, now, ids, i, i + 1) && played == start + Named(ids, Rows(|ids|, i))
  }

  lemma {:induction false} NothingPlayed(entered: Table, now: Table, start: seq<(string, string)>, ids: seq<string>)
    requires Scheduled(entered, now, ids, 0, 1)
    ensures Progress(entered, now, start, start, ids, 0)
  {
    assert Named(ids, Rows(|ids|, 0)) == [];
  }

  lemma {:induction false} RowBegins(
    entered: Table, now: Table, start: seq<(string, string)>, begun: seq<(string, string)>, ids: seq<string>, i: nat)
    requires Progress(entered, now, start, begun, ids, i) && i < |ids|
    ensures RowProgress(entered, now, begun, begun, ids, i, i + 1)
  {
    assert Named(ids, Row(i, i + 1)) == [];
  }

  lemma {:induction false} RowEnds(
    entered: Table, now: Table, start: seq<(string, string)>, begun: seq<(string, string)>, played: seq<(string, string)>,
    ids: seq<string>, i: nat)
    requires i < |ids| && begun == start + Named(ids, Rows(|ids|, i))
    requires RowProgress(entered, now, begun, played, ids, i, |ids|)
    ensures Progress(entered, now, start, played, ids, i + 1)
  {
    RowPlayed(entered, now, ids, i);
    NextRows(ids, i);
  }

  // ----- what the recorded matches say about an agent -----

  /** The matches `id` won, those it lost and those it tied; against itself it both wins and loses, or ties twice. */
  function Won(ms: seq<Match>, id: string): nat {
    if ms == [] then 0
    else Won(ms[..|ms| - 1], id) + if ms[|ms| - 1].winner == Some(id) then 1 else 0
  }

  function LosesIt(m: Match, id: string): bool {
    m.winner.Some? && ((m.agentB == id && m.winner == Some(m.agentA)) || (m.agentA == id && m.winner != Some(m.agentA)))
  }

  function Lost(ms: seq<Match>, id: string): nat {
    if ms == [] then 0
    else Lost(ms[..|ms| - 1], id) + if LosesIt(ms[|ms| - 1], id) then 1 else 0
  }

  function Tied(ms: seq<Match>, id: string): nat {
    if ms == [] then 0
    else
      var m := ms[|ms| - 1];
      Tied(ms[..|ms| - 1], id) +
      if m.winner.Some? then 0 else (if m.agentA == id then 1 else 0) + (if m.agentB == id then 1 else 0)
  }

  /** An agent's record is what its recorded matches say. */
  ghost predicate Told(t: Table, ms: seq<Match>, id: string) {
    if id in t then t[id].wins == Won(ms, id) && t[id].losses == Lost(ms, id) && t[id].ties == Tied(ms, id)
    else Won(ms, id) == 0 && Lost(ms, id) == 0 && Tied(ms, id) == 0
  }

  ghost predicate AllTold(t: Table, ms: seq<Match>) {
    forall id {:trigger Told(t, ms, id)} :: Told(t, ms, id)
  }

  lemma {:induction false} ToldWithAgent(t: Table, ms: seq<Match>, id: string, initial: real)
    requires AllTold(t, ms)
    ensures AllTold(WithAgent(t, id, initial), ms)
  {
    forall other ensures Told(WithAgent(t, id, initial), ms, other) {
      assert Told(t, ms, other);
    }
  }

  lemma {:induction false} ToldAfterMatch(t: Table, ms: seq<Match>, m: Match, k: real, expected: real)
    requires AllTold(t, ms) && Playable(t, m.winner, m.agentA, m.agentB)
    ensures AllTold(AfterMatch(t, k, m.winner, m.agentA, m.agentB, expected), ms + [m])
  {
    assert (ms + [m])[..|ms|] == ms;
    forall id ensures Told(AfterMatch(t, k, m.winner, m.agentA, m.agentB, expected), ms + [m], id) {
      assert Told(t, ms, id);
    }
  }

  /** Every agent's wins, losses and ties have grown by the new matches it won, lost and tied. */
  ghost predicate GrownFor(before: Table, now: Table, new_: seq<Match>, id: string) {
    && (id in before ==> id in now)
    && (id in now ==>
          && now[id].wins == (if id in before then before[id].wins else 0) + Won(new_, id)
          && now[id].losses == (if id in before then before[id].losses else 0) + Lost(new_, id)
          && now[id].ties == (if id in before then before[id].ties else 0) + Tied(new_, id))
  }

  ghost predicate Grown(before: Table, now: Table, new_: seq<Match>) {
    forall id {:trigger GrownFor(before, now, new_, id)} :: GrownFor(before, now, new_, id)
  }

  lemma {:induction false} CountsJoin(ms: seq<Match>, more: seq<Match>, id: string)
    ensures Won(ms + more, id) == Won(ms, id) + Won(more, id)
    ensures Lost(ms + more, id) == Lost(ms, id) + Lost(more, id)
    ensures Tied(ms + more, id) == Tied(ms, id) + Tied(more, id)
  {
    if more == [] {
      assert ms + more == ms;
    } else {
      assert (ms + more)[..|ms + more| - 1] == ms + more[..|more| - 1];
      CountsJoin(ms, more[..|more| - 1], id);
    }
  }

  lemma {:induction false} RecordsGrow(before: Table, ms: seq<Match>, now: Table, all: seq<Match>)
    requires AllTold(before, ms) && AllTold(now, all) && ms <= all && before.Keys <= now.Keys
    ensures Grown(before, now, all[|ms|..])
  {
    assert all == ms + all[|ms|..];
    forall id ensures GrownFor(before, now, all[|ms|..], id) {
      assert Told(before, ms, id) && Told(now, all, id);
      CountsJoin(ms, all[|ms|..], id);
    }
  }

  /** How many rolls, the bias added, are above 0.55, and how many below 0.45. */
  function High(rolls: seq<real>, bias: real): nat {
    if rolls == [] then 0
    else High(rolls[..|rolls| - 1], bias) + if rolls[|rolls| - 1] + bias > 0.55 then 1 else 0
  }

  function Low(rolls: seq<real>, bias: real): nat {
    if rolls == [] then 0
    else Low(rolls[..|rolls| - 1], bias) + if rolls[|rolls| - 1] + bias < 0.45 then 1 else 0
  }

  lemma {:induction false} HighCounts(rolls: seq<real>, bias: real)
    ensures High(rolls, bias) == |set i | 0 <= i < |rolls| && rolls[i] + bias > 0.55|
  {
    if rolls != [] {
      var n := |rolls| - 1;
      HighCounts(rolls[..n], bias);
      var up := set i | 0 <= i < n && rolls[..n][i] + bias > 0.55;
      assert (set i | 0 <= i < |rolls| && rolls[i] + bias > 0.55) == if rolls[n] + bias > 0.55 then up + {n} else up;
    }
  }

  lemma {:induction false} LowCounts(rolls: seq<real>, bias: real)
    ensures Low(rolls, bias) == |set i | 0 <= i < |rolls| && rolls[i] + bias < 0.45|
  {
    if rolls != [] {
      var n := |rolls| - 1;
      LowCounts(rolls[..n], bias);
      var down := set i | 0 <= i < n && rolls[..n][i] + bias < 0.45;
      assert (set i | 0 <= i < |rolls| && rolls[i] + bias < 0.45) == if rolls[n] + bias < 0.45 then down + {n} else down;
    }
  }

  /** A round gives at most one point. */
  lemma {:induction false} OnePointARound(rolls: seq<real>, bias: real)
    ensures High(rolls, bias) + Low(rolls, bias) <= |rolls|
  {
    if rolls != [] {
      OnePointARound(rolls[..|rolls| - 1], bias);
    }
  }

  lemma {:induction false} MatchGames(t: Table, k: real, winner: Option<string>, a: string, b: string, expected: real)
    requires Playable(t, winner, a, b)
    ensures OneGameEach(t, AfterMatch(t, k, winner, a, b, expected), a, b)
  {
  }

  lemma {:induction false} SameSize(t: Table, u: Table)
    requires t.Keys == u.Keys
    ensures |t| == |u|
  {
    assert |t.Keys| == |u.Keys|;
  }

  lemma {:induction false} WinsKeepBalance(t: Table, k: real, winner: Option<string>, a: string, b: string, expected: real)
    requires Playable(t, winner, a, b) && Sum(t, Wins) == Sum(t, Losses)
    ensures Sum(AfterMatch(t, k, winner, a, b, expected), Wins) == Sum(AfterMatch(t, k, winner, a, b, expected), Losses)
  {
    if a != b {
      MatchKeepsTotals(t, k, winner, a, b, expected);
    } else {
      SelfMatchTotals(t, k, winner, a, expected);
    }
  }

  /** A match keeps the account of the total rating, one self-match more if it is one. */
  lemma {:induction false} MatchKeepsBalance(t: Table, c: Config, m: Match, expected: real, initial: real, selfs: nat)
    requires Playable(t, m.winner, m.agentA, m.agentB) && m.winner == WinnerOf(c, m.agentA, m.agentB, m.scoreA, m.scoreB)
    requires m.agentA == m.agentB ==> m.scoreA == m.scoreB && expected == 0.5
    requires Balanced(t, initial, SelfLoss(c), selfs)
    ensures var u := AfterMatch(t, c.kFactor, m.winner, m.agentA, m.agentB, expected);
            Balanced(u, initial, SelfLoss(c), selfs + if m.agentA == m.agentB then 1 else 0)
  {
    var u := AfterMatch(t, c.kFactor, m.winner, m.agentA, m.agentB, expected);
    SameSize(t, u);
    if m.agentA != m.agentB {
      MatchKeepsTotals(t, c.kFactor, m.winner, m.agentA, m.agentB, expected);
    } else {
      SelfMatchTotals(t, c.kFactor, m.winner, m.agentA, expected);
      SelfMatchCosts(t, c, m.agentA, m.scoreA);
    }
  }

  class TournamentEngine {
    const config: Config
    /** The expected score of a rating against another. */
    const expectedScore: (real, real) -> real
    var table: Table
    var matches: seq<Match>

    /** Equals expect half a point. */
    ghost predicate Fair() {
      forall r :: expectedScore(r, r) == 0.5
    }

    /** The total rating is what the agents entered with, but for the matches of agents against themselves. */
    ghost predicate Valid()
      reads this
    {
      var selfs := SelfMatches(PairsOf(matches));
      && AllTold(table, matches) && Sum(table, Wins) == Sum(table, Losses)
      && (selfs == 0 || Fair() ==> Balanced(table, config.initial, SelfLoss(config), selfs))
    }

    constructor (c: Config, e: (real, real) -> real)
      ensures Valid() && config == c && expectedScore == e && table == map[] && matches == []
    {
      config, expectedScore, table, matches := c, e, map[], [];
    }

    method EnsureAgent(id: string)
      modifies `table
      ensures table == WithAgent(old(table), id, config.initial)
    {
      if id !in table {
        table := table[id := Record(config.initial, 0, 0, 0)];
      }
    }

    method UpdateElo(winner: Option<string>, a: string, b: string)
      requires Playable(table, winner, a, b)
      modifies `table
      ensures table == AfterMatch(old(table), config.kFactor, winner, a, b, old(expectedScore(table[a].elo, table[b].elo)))
    {
      var k, ra, rb := config.kFactor, table[a].elo, table[b].elo;
      var ea := expectedScore(ra, rb);
      var eb := 1.0 - ea;
      var newRa, newRb;
      if winner == None {
        newRa, newRb := NewRating(ra, k, 0.5, ea), NewRating(rb, k, 0.5, eb);
        table := table[a := table[a].(ties := table[a].ties + 1)];
        table := table[b := table[b].(ties := table[b].ties + 1)];
      } else if winner == Some(a) {
        newRa, newRb := NewRating(ra, k, 1.0, ea), NewRating(rb, k, 0.0, eb);
        table := table[a := table[a].(wins := table[a].wins + 1)];
        table := table[b := table[b].(losses := table[b].losses + 1)];
      } else {
        newRa, newRb := NewRating(ra, k, 0.0, ea), NewRating(rb, k, 1.0, eb);
        table := table[b := table[b].(wins := table[b].wins + 1)];
        table := table[a := table[a].(losses := table[a].losses + 1)];
      }
      table := table[a := table[a].(elo := newRa)];
      table := table[b := table[b].(elo := newRb)];
    }

    /** The rounds of a match. Scores are kept by identity, so an agent that meets itself has one score for both sides. */
    static method PlayRounds(a: Agent, b: Agent, rolls: seq<real>) returns (scoreA: int, scoreB: int)
      ensures a.identity != b.identity ==> scoreA == High(rolls, a.bias) && scoreB == Low(rolls, a.bias)
      ensures a.identity == b.identity ==> scoreA == scoreB == High(rolls, a.bias) + Low(rolls, a.bias)
    {
      var scores: map<string, int> := map[a.identity := 0, b.identity := 0];
      ghost var same := a.identity == b.identity;
      for r := 0 to |rolls|
        invariant a.identity in scores && b.identity in scores
        invariant scores[a.identity] == High(rolls[..r], a.bias) + if same then Low(rolls[..r], a.bias) else 0
        invariant scores[b.identity] == Low(rolls[..r], a.bias) + if same then High(rolls[..r], a.bias) else 0
      {
        assert rolls[..r + 1][..r] == rolls[..r];
        var roll := rolls[r] + a.bias;
        if roll > 0.55 {
          scores := scores[a.identity := scores[a.identity] + 1];
        } else if roll < 0.45 {
          scores := scores[b.identity := scores[b.identity] + 1];
        }
      }
      assert rolls[..|rolls|] == rolls;
      scoreA, scoreB := scores[a.identity], scores[b.identity];
    }

    /**
     A match with the given rolls. The winner scored more, except that the second agent wins at equal scores when ties
     are impossible.
     */
    method PlayMatch(a: Agent, b: Agent, rolls: seq<real>) returns (m: Match)
      requires a.identity in table && b.identity in table
      modifies `table
      ensures m.agentA == a.identity && m.agentB == b.identity && m.rounds == config.numRounds
      ensures a.identity != b.identity ==> m.scoreA == High(rolls, a.bias) && m.scoreB == Low(rolls, a.bias)
      ensures a.identity != b.identity ==> m.scoreA + m.scoreB <= |rolls|
      ensures a.identity == b.identity ==> m.scoreA == m.scoreB
      ensures m.winner == WinnerOf(config, a.identity, b.identity, m.scoreA, m.scoreB)
      ensures a.identity != b.identity && m.winner == Some(a.identity) ==> m.scoreA > m.scoreB
      ensures a.identity != b.identity && m.winner == Some(b.identity) ==>
                m.scoreB > m.scoreA || (m.scoreA == m.scoreB && !TiesPossible(config))
      ensures m.winner == None <==>
              -(config.tieThreshold * config.numRounds as real) < (m.scoreA - m.scoreB) as real < config.tieThreshold * config.numRounds as real
      ensures table.Keys == old(table).Keys
      ensures a.identity != b.identity && m.winner == Some(a.identity) ==>
                table[a.identity].wins == old(table)[a.identity].wins + 1 &&
                table[b.identity].losses == old(table)[b.identity].losses + 1
      ensures a.identity != b.identity && m.winner == Some(b.identity) ==>
                table[b.identity].wins == old(table)[b.identity].wins + 1 &&
                table[a.identity].losses == old(table)[a.identity].losses + 1
      ensures a.identity != b.identity && m.winner == None ==>
                table[a.identity].ties == old(table)[a.identity].ties + 1 &&
                table[b.identity].ties == old(table)[b.identity].ties + 1
      ensures Playable(old(table), m.winner, a.identity, b.identity)
      ensures table == AfterMatch(old(table), config.kFactor, m.winner, a.identity, b.identity,
                                  old(expectedScore(table[a.identity].elo, table[b.identity].elo)))
    {
      var totalA, totalB := PlayRounds(a, b, rolls);
      OnePointARound(rolls, a.bias);
      var winner := WinnerOf(config, a.identity, b.identity, totalA, totalB);
      ghost var before, expected := table, expectedScore(table[a.identity].elo, table[b.identity].elo);
      UpdateElo(winner, a.identity, b.identity);
      if a.identity != b.identity {
        MatchCounts(before, config.kFactor, winner, a.identity, b.identity, expected, table);
      }
      m := Match(a.identity, b.identity, winner, totalA, totalB, config.numRounds);
    }

    /** Random numbers, as many as there are rounds. */
    method Draw() returns (rolls: seq<real>)
      ensures |rolls| == if config.numRounds < 0 then 0 else config.numRounds
    {
      rolls := [];
      while |rolls| < config.numRounds
        invariant |rolls| <= if config.numRounds < 0 then 0 else config.numRounds
      {
        var uniform: real := *;
        rolls := rolls + [uniform];
      }
    }

    /** One match of the round robin. */
    method PlayPair(a: Agent, b: Agent)
      requires Valid() && a.identity in table && b.identity in table
      modifies this
      ensures Valid() && PairsOf(matches) == PairsOf(old(matches)) + [(a.identity, b.identity)]
      ensures OneGameEach(old(table), table, a.identity, b.identity)
      ensures old(matches) <= matches
    {
      ghost var before, expected := table, expectedScore(table[a.identity].elo, table[b.identity].elo);
      var rolls := Draw();
      var m := PlayMatch(a, b, rolls);
      MatchGames(before, config.kFactor, m.winner, a.identity, b.identity, expected);
      WinsKeepBalance(before, config.kFactor, m.winner, a.identity, b.identity, expected);
      ghost var selfs := SelfMatches(PairsOf(matches));
      if (a.identity != b.identity && selfs == 0) || Fair() {
        MatchKeepsBalance(before, config, m, expected, config.initial, selfs);
      }
      assert PairsOf(matches + [m]) == PairsOf(matches) + [(a.identity, b.identity)];
      assert (PairsOf(matches) + [(a.identity, b.identity)])[..|matches|] == PairsOf(matches);
      ToldAfterMatch(before, matches, m, config.kFactor, expected);
      matches := matches + [m];
    }

    method EnsureAll(agents: seq<Agent>)
      requires Valid()
      modifies `table
      ensures Valid() && table == Joined(old(table), Ids(agents), config.initial)
    {
      for i := 0 to |agents|
        invariant Valid() && table == Joined(old(table), Ids(agents)[..i], config.initial)
      {
        AgentKeepsBalance(table, agents[i].identity, config.initial);
        ToldWithAgent(table, matches, agents[i].identity, config.initial);
        EnsureAgent(agents[i].identity);
        assert Ids(agents)[..i + 1][..i] == Ids(agents)[..i];
      }
      assert Ids(agents)[..|agents|] == Ids(agents);
    }

    /**
     A full round robin, of any list. The new matches are the pairs of the list in order, so that every two places meet
     once; each agent has n - 1 games more for each time it is listed, others none. Distinct agents conserve the total
     rating; an agent that meets itself costs it half the K factor when ties are impossible, and nothing otherwise.
     */
    method RunTournament(agents: seq<Agent>) returns (all: seq<Match>)
      requires Valid()
      modifies this
      ensures Valid() && all == (if agents == [] then [] else matches)
      ensures PairsOf(matches) == PairsOf(old(matches)) + Named(Ids(agents), Rows(|agents|, |agents|))
      ensures AllPlayed(Joined(old(table), Ids(agents), config.initial), table, Ids(agents))
      ensures SelfMatches(PairsOf(matches)) == SelfMatches(PairsOf(old(matches))) <==> Distinct(Ids(agents))
      ensures old(matches) <= matches && Grown(old(table), table, matches[|old(matches)|..])
    {
      EnsureAll(agents);
      ghost var ids := Ids(agents);
      JoinedHas(old(table), ids, config.initial);
      NonePlayed(table, ids);
      ghost var entered := table;
      PlayAll(agents, table);
      EveryonePlayed(entered, table, ids);
      RecordsGrow(old(table), old(matches), table, matches);
      NewSelfMatches(PairsOf(old(matches)), ids, PairsOf(matches));
      all := if agents == [] then [] else matches;
    }

    /** The outer loop. */
    method PlayAll(agents: seq<Agent>, ghost entered: Table)
      requires Valid() && Scheduled(entered, table, Ids(agents), 0, 1)
      modifies this
      ensures Valid() && Scheduled(entered, table, Ids(agents), |agents|, |agents| + 1)
      ensures PairsOf(matches) == PairsOf(old(matches)) + Named(Ids(agents), Rows(|agents|, |agents|))
      ensures old(matches) <= matches
    {
      ghost var start := PairsOf(matches);
      NothingPlayed(entered, table, start, Ids(agents));
      for i := 0 to |agents|
        invariant Valid() && Progress(entered, table, start, PairsOf(matches), Ids(agents), i) && old(matches) <= matches
      {
        PlayRow(agents, i, entered, start);
      }
    }

    /** One turn of it: agent `i` against all after it. */
    method PlayRow(agents: seq<Agent>, i: nat, ghost entered: Table, ghost start: seq<(string, string)>)
      requires Valid() && i < |agents| && Progress(entered, table, start, PairsOf(matches), Ids(agents), i)
      modifies this
      ensures Valid() && Progress(entered, table, start, PairsOf(matches), Ids(agents), i + 1)
      ensures old(matches) <= matches
    {
      ghost var begun := PairsOf(matches);
      RowBegins(entered, table, start, begun, Ids(agents), i);
      PlayRest(agents, i, entered, begun);
      RowEnds(entered, table, start, begun, PairsOf(matches), Ids(agents), i);
    }

    /** The inner loop. */
    method PlayRest(agents: seq<Agent>, i: nat, ghost entered: Table, ghost begun: seq<(string, string)>)
      requires Valid() && i < |agents| && RowProgress(entered, table, begun, PairsOf(matches), Ids(agents), i, i + 1)
      modifies this
      ensures Valid() && RowProgress(entered, table, begun, PairsOf(matches), Ids(agents), i, |agents|)
      ensures old(matches) <= matches
    {
      for j := i + 1 to |agents|
        invariant Valid() && RowProgress(entered, table, begun, PairsOf(matches), Ids(agents), i, j) && old(matches) <= matches
      {
        PlayNext(agents, i, j, entered, begun);
      }
    }

    method PlayNext(agents: seq<Agent>, i: nat, j: nat, ghost entered: Table, ghost start: seq<(string, string)>)
      requires Valid() && j < |agents|
      requires RowProgress(entered, table, start, PairsOf(matches), Ids(agents), i, j)
      modifies this
      ensures Valid() && RowProgress(entered, table, start, PairsOf(matches), Ids(agents), i, j + 1)
      ensures old(matches) <= matches
    {
      ghost var before, played := table, PairsOf(matches);
      PlayPair(agents[i], agents[j]);
      NextRowProgress(entered, before, table, start, played, PairsOf(matches), Ids(agents), i, j);
    }
  }
}
