/** The sliding hour window of the self-prompt limiter. */
module SlidingWindow {

  const HOUR := 3600.0

  ghost predicate Ordered(ts: seq<real>) {
    forall i, j :: 0 <= i < j < |ts| ==> ts[i] <= ts[j]
  }

  /** Grants no more than an hour apart, first to last, number at most `max`. */
  ghost predicate Spaced(grants: seq<real>, max: int) {
    forall i, j :: 0 <= i <= j < |grants| && grants[j] - grants[i] <= HOUR ==> j - i + 1 <= max
  }

  /** The window is the recent end of the grants: what it lacks was over an hour old at `seen`. */
  ghost predicate Recent(window: seq<real>, grants: seq<real>, seen: real) {
    && |window| <= |grants|
    && (forall i {:trigger window[i]} :: 0 <= i < |window| ==> window[i] == grants[|grants| - |window| + i])
    && forall i :: 0 <= i < |grants| - |window| ==> seen - grants[i] > HOUR
  }

  function InInterval(grants: seq<real>, a: real, b: real): nat {
    if grants == [] then 0
    else
      var n := |grants| - 1;
      InInterval(grants[..n], a, b) + if a <= grants[n] <= b then 1 else 0
  }

  lemma {:induction false} NoneBefore(grants: seq<real>, a: real, b: real)
    requires forall i :: 0 <= i < |grants| ==> grants[i] < a
    ensures InInterval(grants, a, b) == 0
  {
    if grants != [] {
      NoneBefore(grants[..|grants| - 1], a, b);
    }
  }

  lemma {:induction false} AtMostSuffix(grants: seq<real>, a: real, b: real, k: nat)
    requires k <= |grants| && forall i :: 0 <= i < k ==> grants[i] < a
    ensures InInterval(grants, a, b) <= |grants| - k
  {
    if k == |grants| {
      NoneBefore(grants, a, b);
    } else {
      AtMostSuffix(grants[..|grants| - 1], a, b, k);
    }
  }

  /** The first grant that is not before `a`. */
  lemma {:induction false} FirstFrom(grants: seq<real>, a: real) returns (k: nat)
    requires Ordered(grants)
    ensures k <= |grants| && (forall i :: 0 <= i < k ==> grants[i] < a) && forall i :: k <= i < |grants| ==> a <= grants[i]
  {
    k := 0;
    while k < |grants| && grants[k] < a
      invariant k <= |grants| && forall i :: 0 <= i < k ==> grants[i] < a
    {
      k := k + 1;
    }
  }

  function HourFrom(grants: seq<real>, a: real): nat {
    InInterval(grants, a, a + HOUR)
  }

  /** Every closed interval of at most 3600 seconds holds at most `max` grants. */
  lemma {:induction false} IntervalHoldsAtMost(grants: seq<real>, max: int, a: real, b: real)
    requires Ordered(grants) && Spaced(grants, max) && max >= 0 && b - a <= 3600.0
    ensures InInterval(grants, a, b) <= max
  {
    HourHoldsAtMost(grants, max, a);
    ShorterHoldsLess(grants, a, b, a + HOUR);
  }

  lemma {:induction false} ShorterHoldsLess(grants: seq<real>, a: real, b: real, c: real)
    requires b <= c
    ensures InInterval(grants, a, b) <= InInterval(grants, a, c)
  {
    if grants != [] {
      ShorterHoldsLess(grants[..|grants| - 1], a, b, c);
    }
  }

  lemma {:induction false} HourHoldsAtMost(grants: seq<real>, max: int, a: real)
    requires Ordered(grants) && Spaced(grants, max) && max >= 0
    ensures HourFrom(grants, a) <= max
  {
    if grants != [] {
      var n := |grants| - 1;
      HourHoldsAtMost(grants[..n], max, a);
      if a <= grants[n] <= a + HOUR {
        var k := FirstFrom(grants, a);
        AtMostSuffix(grants, a, a + HOUR, k);
        assert grants[n] - grants[k] <= HOUR;
      }
    }
  }

  /** When exactly the first `k` grants are before `a`, and none is after `b`. */
  lemma {:induction false} CountFrom(grants: seq<real>, a: real, b: real, k: nat)
    requires k <= |grants| && (forall i :: 0 <= i < k ==> grants[i] < a) && forall i :: k <= i < |grants| ==> a <= grants[i] <= b
    ensures InInterval(grants, a, b) == |grants| - k
  {
    if k == |grants| {
      NoneBefore(grants, a, b);
    } else {
      CountFrom(grants[..|grants| - 1], a, b, k);
    }
  }

  /** A pruned window is the last hour. */
  lemma {:induction false} WindowIsLastHour(window: seq<real>, grants: seq<real>, now: real)
    requires Recent(window, grants, now) && forall i :: 0 <= i < |grants| ==> grants[i] <= now
    requires forall i :: 0 <= i < |window| ==> now - window[i] <= HOUR
    ensures InInterval(grants, now - 3600.0, now) == |window|
  {
    var k := |grants| - |window|;
    forall i | k <= i < |grants| ensures now - HOUR <= grants[i] {
      assert grants[i] == window[i - k];
    }
    CountFrom(grants, now - HOUR, now, k);
  }

  lemma {:induction false} GrantKeepsSpacing(window: seq<real>, grants: seq<real>, now: real, max: int)
    requires Ordered(grants) && Spaced(grants, max) && Recent(window, grants, now) && |window| < max
    ensures Spaced(grants + [now], max)
  {
    var after := grants + [now];
    forall i, j | 0 <= i <= j < |after| && after[j] - after[i] <= HOUR ensures j - i + 1 <= max {
      if j == |grants| && i < j {
        assert i >= |grants| - |window|;
      }
    }
  }

  /** The grants so far are in order, none is later than `seen`, and they are spaced. */
  ghost predicate Limited(grants: seq<real>, seen: real, max: int) {
    Ordered(grants) && Spaced(grants, max) && forall i :: 0 <= i < |grants| ==> grants[i] <= seen
  }

  /** A grant made while the window has room. */
  lemma {:induction false} GrantKeepsLimit(window: seq<real>, grants: seq<real>, now: real, max: int)
    requires Limited(grants, now, max) && Recent(window, grants, now) && |window| < max
    ensures Limited(grants + [now], now, max) && Recent(window + [now], grants + [now], now)
  {
    GrantKeepsSpacing(window, grants, now, max);
    PushKeepsRecent(window, grants, now);
  }

  lemma {:induction false} LimitedLater(grants: seq<real>, seen: real, now: real, max: int)
    requires Limited(grants, seen, max) && seen <= now
    ensures Limited(grants, now, max)
  {
  }

  lemma {:induction false} StillRecent(window: seq<real>, grants: seq<real>, seen: real, now: real)
    requires Recent(window, grants, seen) && seen <= now
    ensures Recent(window, grants, now)
  {
  }

  lemma {:induction false} PopKeepsRecent(window: seq<real>, grants: seq<real>, now: real)
    requires Recent(window, grants, now) && window != [] && now - window[0] > HOUR
    ensures Recent(window[1..], grants, now)
  {
    assert window[1..] == grants[|grants| - |window| + 1..];
  }

  lemma {:induction false} PushKeepsRecent(window: seq<real>, grants: seq<real>, now: real)
    requires Recent(window, grants, now)
    ensures Recent(window + [now], grants + [now], now)
  {
    assert (grants + [now])[|grants| - |window|..] == grants[|grants| - |window|..] + [now];
  }
}

/** Turning gap signals into prompts, once each. */
module SelfPrompts {
  import opened SdlcPhase
  import opened TextMatch
  import opened Lists
  import opened Blanks
  import opened Hashing

  datatype Signal = Signal(intent: string, phase: Phase, evidence: seq<string>, priority: nat)

  datatype Prompt = Prompt(phase: Phase, intent: string, evidence: seq<string>, priority: nat, generation: nat)

  const MAX_GENERATION := 2

  /** The text operations and the hash that make a prompt's key. */
  datatype Hasher = Hasher(alphabet: Alphabet, sha: string -> string)

  function PhaseName(p: Phase): string {
    match p
    case PLAN => "PLAN"
    case ARCHITECT => "ARCHITECT"
    case IMPLEMENT => "IMPLEMENT"
    case REVIEW => "REVIEW"
    case GOVERN => "GOVERN"
    case OPERATE => "OPERATE"
  }

  function Normal(a: Alphabet, intent: string): string {
    Lower(a, Strip(a.space, intent))
  }

  function Key(h: Hasher, phase: Phase, intent: string): string {
    h.sha(PhaseName(phase) + "|" + Normal(h.alphabet, intent))
  }

  /** A key stands for one phase and one intent, blanks around it and letter case aside. */
  lemma {:induction false} KeyIdentifies(h: Hasher, p: Phase, s: string, q: Phase, t: string)
    requires Injective(h.sha)
    ensures Key(h, p, s) == Key(h, q, t) <==> p == q && Normal(h.alphabet, s) == Normal(h.alphabet, t)
    ensures var name := match p { case PLAN => "PLAN" case ARCHITECT => "ARCHITECT" case IMPLEMENT => "IMPLEMENT"
                                  case REVIEW => "REVIEW" case GOVERN => "GOVERN" case OPERATE => "OPERATE" };
            Key(h, p, s) == h.sha(name + "|" + Lower(h.alphabet, Strip(h.alphabet.space, s)))
  {
    var m, n := Normal(h.alphabet, s), Normal(h.alphabet, t);
    if Key(h, p, s) == Key(h, q, t) {
      var u, v := PhaseName(p) + "|" + m, PhaseName(q) + "|" + n;
      assert u == v;
      SamePhase(p, q, m, n);
      assert m == u[|PhaseName(p)| + 1..] && n == v[|PhaseName(q)| + 1..];
    }
  }

  lemma {:induction false} SamePhase(p: Phase, q: Phase, m: string, n: string)
    requires PhaseName(p) + "|" + m == PhaseName(q) + "|" + n
    ensures p == q
  {
    var u, v := PhaseName(p) + "|" + m, PhaseName(q) + "|" + n;
    assert u[|PhaseName(p)|] == '|' && v[|PhaseName(q)|] == '|';
    assert forall i :: 0 <= i < |PhaseName(p)| ==> u[i] == PhaseName(p)[i];
    assert forall i :: 0 <= i < |PhaseName(q)| ==> v[i] == PhaseName(q)[i];
    assert u[0] == PhaseName(p)[0] && v[0] == PhaseName(q)[0];
  }

  /** How prompts are told apart; `hash_key` is `HashKey` of a hasher. */
  type KeyFunction = (Phase, string) -> string

  function HashKey(h: Hasher): KeyFunction {
    (phase, intent) => Key(h, phase, intent)
  }

  function KeyOf(key: KeyFunction, p: Prompt): string {
    key(p.phase, p.intent)
  }

  function SignalKey(key: KeyFunction, s: Signal): string {
    key(s.phase, s.intent)
  }

  function PromptFor(s: Signal, generation: nat): Prompt {
    Prompt(s.phase, s.intent, s.evidence, s.priority, generation)
  }

  function Keys(key: KeyFunction, ps: seq<Prompt>): (ks: seq<string>)
    ensures |ks| == |ps| && forall i :: 0 <= i < |ps| ==> ks[i] == KeyOf(key, ps[i])
  {
    seq(|ps|, i requires 0 <= i < |ps| => KeyOf(key, ps[i]))
  }

  /** The prompts of the signals whose keys have not occurred, in order. */
  function Synthesized(key: KeyFunction, signals: seq<Signal>, seen: set<string>, generation: nat): seq<Prompt> {
    if signals == [] then []
    else
      var n := |signals| - 1;
      var before := Synthesized(key, signals[..n], seen, generation);
      var p := PromptFor(signals[n], generation);
      if KeyOf(key, p) in seen || KeyOf(key, p) in Keys(key, before) then before else before + [p]
  }

  lemma {:induction false} KeysMore(key: KeyFunction, ps: seq<Prompt>, p: Prompt)
    ensures Keys(key, ps + [p]) == Keys(key, ps) + [KeyOf(key, p)]
  {
  }

  /** Each key once, and none that was seen. */
  lemma {:induction false} SynthesizedAreNew(key: KeyFunction, signals: seq<Signal>, seen: set<string>, generation: nat)
    ensures var ks := Keys(key, Synthesized(key, signals, seen, generation));
            DistinctElements(ks) && forall i :: 0 <= i < |ks| ==> ks[i] !in seen
  {
    if signals != [] {
      var n := |signals| - 1;
      SynthesizedAreNew(key, signals[..n], seen, generation);
      KeysMore(key, Synthesized(key, signals[..n], seen, generation), PromptFor(signals[n], generation));
    }
  }

  lemma {:induction false} SynthesizedIsShort(key: KeyFunction, signals: seq<Signal>, seen: set<string>, generation: nat)
    ensures |Synthesized(key, signals, seen, generation)| <= |signals|
  {
    if signals != [] {
      SynthesizedIsShort(key, signals[..|signals| - 1], seen, generation);
    }
  }

  /** The prompt is what signal `k` carries, and no signal before it has its key. */
  ghost predicate FirstOfKey(key: KeyFunction, signals: seq<Signal>, generation: nat, p: Prompt, k: nat) {
    && k < |signals|
    && p == Prompt(signals[k].phase, signals[k].intent, signals[k].evidence, signals[k].priority, generation)
    && forall j :: 0 <= j < k ==> SignalKey(key, signals[j]) != SignalKey(key, signals[k])
  }

  lemma {:induction false} FirstOfKeyStays(key: KeyFunction, signals: seq<Signal>, generation: nat, p: Prompt, k: nat)
    requires signals != [] && FirstOfKey(key, signals[..|signals| - 1], generation, p, k)
    ensures FirstOfKey(key, signals, generation, p, k)
  {
  }

  /** The prompts come from the signals `at`, in order. */
  ghost predicate ComeFrom(key: KeyFunction, signals: seq<Signal>, generation: nat, ps: seq<Prompt>, at: seq<nat>) {
    && |at| == |ps| && (forall i, j :: 0 <= i < j < |at| ==> at[i] < at[j])
    && (forall i :: 0 <= i < |at| ==> FirstOfKey(key, signals, generation, ps[i], at[i]))
  }

  lemma {:induction false} ComeFromMore(key: KeyFunction, signals: seq<Signal>, generation: nat, ps: seq<Prompt>, at: seq<nat>)
    requires signals != [] && ComeFrom(key, signals[..|signals| - 1], generation, ps, at)
    ensures ComeFrom(key, signals, generation, ps, at)
    ensures var n, p := |signals| - 1, PromptFor(signals[|signals| - 1], generation);
            FirstOfKey(key, signals, generation, p, n) ==> ComeFrom(key, signals, generation, ps + [p], at + [n])
  {
    forall i | 0 <= i < |at| ensures FirstOfKey(key, signals, generation, ps[i], at[i]) {
      FirstOfKeyStays(key, signals, generation, ps[i], at[i]);
    }
  }

  /** Which signals the prompts come from: in order, each the first of its key, with everything carried over. */
  lemma {:induction false} SynthesizedFrom(key: KeyFunction, signals: seq<Signal>, seen: set<string>, generation: nat)
    returns (at: seq<nat>)
    ensures ComeFrom(key, signals, generation, Synthesized(key, signals, seen, generation), at)
  {
    at := [];
    if signals != [] {
      var n := |signals| - 1;
      var before := Synthesized(key, signals[..n], seen, generation);
      at := SynthesizedFrom(key, signals[..n], seen, generation);
      ComeFromMore(key, signals, generation, before, at);
      if SignalKey(key, signals[n]) !in seen && SignalKey(key, signals[n]) !in Keys(key, before) {
        NewIsFirst(key, signals, seen, generation, before);
        at := at + [n];
      }
    }
  }

  lemma {:induction false} NewIsFirst(key: KeyFunction, signals: seq<Signal>, seen: set<string>, generation: nat, before: seq<Prompt>)
    requires signals != [] && before == Synthesized(key, signals[..|signals| - 1], seen, generation)
    requires !Covered(key, SignalKey(key, signals[|signals| - 1]), seen, before)
    ensures FirstOfKey(key, signals, generation, PromptFor(signals[|signals| - 1], generation), |signals| - 1)
  {
    var n := |signals| - 1;
    forall j | 0 <= j < n ensures SignalKey(key, signals[j]) != SignalKey(key, signals[n]) {
      SynthesizedCovers(key, signals[..n], seen, generation, signals[j]);
    }
  }

  ghost predicate Covered(key: KeyFunction, hash: string, seen: set<string>, ps: seq<Prompt>) {
    hash in seen || hash in Keys(key, ps)
  }

  lemma {:induction false} CoveredMore(key: KeyFunction, hash: string, seen: set<string>, ps: seq<Prompt>, p: Prompt)
    ensures Covered(key, hash, seen, ps) ==> Covered(key, hash, seen, ps + [p])
    ensures Covered(key, KeyOf(key, p), seen, ps + [p])
  {
    KeysMore(key, ps, p);
  }

  /** Every signal's key was seen or is among the prompts. */
  lemma {:induction false} SynthesizedCovers(key: KeyFunction, signals: seq<Signal>, seen: set<string>, generation: nat, s: Signal)
    requires s in signals
    ensures Covered(key, SignalKey(key, s), seen, Synthesized(key, signals, seen, generation))
  {
    var n := |signals| - 1;
    var before, p := Synthesized(key, signals[..n], seen, generation), PromptFor(signals[n], generation);
    CoveredMore(key, SignalKey(key, s), seen, before, p);
    if s != signals[n] {
      assert signals == signals[..n] + [signals[n]];
      SynthesizedCovers(key, signals[..n], seen, generation, s);
    }
  }

  method Synthesize(key: KeyFunction, signals: seq<Signal>, dedup: set<string>, parentGeneration: nat) returns (prompts: seq<Prompt>)
    ensures parentGeneration >= 2 ==> prompts == []
    ensures parentGeneration < 2 ==> prompts == Synthesized(key, signals, dedup, parentGeneration + 1)
  {
    if parentGeneration >= MAX_GENERATION {
      return [];
    }
    var seen := dedup;
    prompts := [];
    for i := 0 to |signals|
      invariant prompts == Synthesized(key, signals[..i], dedup, parentGeneration + 1)
      invariant forall k :: k in seen <==> k in dedup || k in Keys(key, prompts)
    {
      assert signals[..i + 1][..i] == signals[..i];
      var prompt := PromptFor(signals[i], parentGeneration + 1);
      var hash := KeyOf(key, prompt);
      if hash !in seen {
        seen := seen + {hash};
        assert Keys(key, prompts + [prompt]) == Keys(key, prompts) + [hash];
        prompts := prompts + [prompt];
      }
    }
    assert signals[..|signals|] == signals;
  }
}

/** Dispatching under the limiter, over any number of passes and restarts. */
module SelfPromptLoop {
  import opened SdlcPhase
  import opened Decimal
  import opened SlidingWindow
  import opened SelfPrompts
  import opened Lists

  const REMEMBERED := 200

  /** What the state file keeps for self-prompting, the prompt queue's records, and the clock. */
  class Store {
    var window: seq<real>
    var dedup: seq<string>
    var queue: seq<Prompt>
    var clock: real
    /** All grants and all keys written, ever. */
    ghost var grants: seq<real>
    ghost var written: seq<string>
    const max: int

    ghost predicate Valid()
      reads this
    {
      Limited(grants, clock, max) && Recent(window, grants, clock)
    }

    /** The hour that ends now holds as many grants as are allowed. */
    ghost predicate HourFull()
      reads this
    {
      InInterval(grants, clock - 3600.0, clock) >= max
    }

    constructor (m: int)
      ensures Valid() && max == m && grants == [] && written == [] && dedup == [] && queue == []
    {
      max, window, dedup, queue, grants, written, clock := m, [], [], [], [], [], 0.0;
    }

    /** Reading the clock, which never goes back. */
    method Now() returns (now: real)
      modifies `clock
      ensures old(clock) <= now == clock
    {
      var elapsed: real := *;
      clock := if elapsed > 0.0 then clock + elapsed else clock;
      now := clock;
    }
  }

  /** Drops what is over an hour old from the front. */
  method Pruned(window: seq<real>, ghost grants: seq<real>, now: real) returns (recent: seq<real>)
    requires Recent(window, grants, now) && Ordered(grants)
    ensures Recent(recent, grants, now) && forall i :: 0 <= i < |recent| ==> now - recent[i] <= HOUR
  {
    recent := window;
    while recent != [] && now - recent[0] > HOUR
      invariant Recent(recent, grants, now)
      decreases |recent|
    {
      PopKeepsRecent(recent, grants, now);
      recent := recent[1..];
    }
  }

  class RateLimiter {
    const store: Store
    var window: seq<real>

    ghost predicate Valid()
      reads this, store
    {
      store.Valid() && Recent(window, store.grants, store.clock)
    }

    /** A limiter starts from the saved window, as it does after a restart. */
    constructor (s: Store)
      requires s.Valid()
      ensures Valid() && store == s
    {
      store, window := s, s.window;
    }

    /** A grant is refused exactly when the hour that ends now is full; the window that is saved is that of the last grant. */
    method TryConsume() returns (ok: bool)
      requires Valid()
      modifies this, store`window, store`grants, store`clock
      ensures Valid() && old(store.clock) <= store.clock
      ensures ok <==> InInterval(old(store.grants), store.clock - 3600.0, store.clock) < store.max
      ensures store.grants == if ok then old(store.grants) + [store.clock] else old(store.grants)
      ensures store.window == if ok then window else old(store.window)
      ensures forall i :: 0 <= i < |window| ==> store.clock - window[i] <= HOUR
    {
      var now := Prune();
      ok := GrantIfRoom(now);
    }

    method GrantIfRoom(now: real) returns (ok: bool)
      requires Valid() && store.clock == now && forall i :: 0 <= i < |window| ==> now - window[i] <= HOUR
      modifies `window, store`window, store`grants
      ensures Valid() && (ok <==> old(|window|) < store.max)
      ensures store.grants == if ok then old(store.grants) + [now] else old(store.grants)
      ensures store.window == if ok then window else old(store.window)
      ensures forall i :: 0 <= i < |window| ==> now - window[i] <= HOUR
    {
      if |window| >= store.max {
        return false;
      }
      Grant(now);
      ok := true;
    }

    /** Reads the clock and drops what is over an hour old; what is left is the last hour. */
    method Prune() returns (now: real)
      requires Valid()
      modifies `window, store`clock
      ensures Valid() && old(store.clock) <= store.clock == now
      ensures |window| == InInterval(store.grants, now - 3600.0, now)
      ensures forall i :: 0 <= i < |window| ==> now - window[i] <= HOUR
    {
      now := store.Now();
      StillRecent(window, store.grants, old(store.clock), now);
      StillRecent(store.window, store.grants, old(store.clock), now);
      LimitedLater(store.grants, old(store.clock), now, store.max);
      window := Pruned(window, store.grants, now);
      WindowIsLastHour(window, store.grants, now);
    }

    /** Appends to the window, which is saved at once. */
    method Grant(now: real)
      requires Limited(store.grants, now, store.max) && Recent(window, store.grants, now) && |window| < store.max
      requires store.clock == now
      modifies `window, store`window, store`grants
      ensures Valid() && store.grants == old(store.grants) + [now]
      ensures window == old(window) + [now] && store.window == window
    {
      GrantKeepsLimit(window, store.grants, now, store.max);
      window := window + [now];
      store.grants := store.grants + [now];
      store.window := window;
    }
  }

  /** The store after some prompts have been written: queue, keys and grants have grown by them, the dedup list has not. */
  ghost predicate Sent(key: KeyFunction, store: Store, queue: seq<Prompt>, written: seq<string>, grants: seq<real>, dedup: seq<string>, accepted: seq<Prompt>)
    reads store
  {
    && store.queue == queue + accepted && store.written == written + Keys(key, accepted)
    && Extended(grants, store.grants, |accepted|) && store.dedup == dedup
  }

  predicate Extended(grants: seq<real>, more: seq<real>, n: nat) {
    grants <= more && |more| == |grants| + n
  }

  lemma {:induction false} ExtendedOnce(grants: seq<real>, more: seq<real>, n: nat, now: real)
    requires Extended(grants, more, n)
    ensures Extended(grants, more + [now], n + 1)
  {
  }

  lemma {:induction false} WrittenOnce(key: KeyFunction, written: seq<string>, accepted: seq<Prompt>, p: Prompt, more: seq<string>)
    requires more == written + Keys(key, accepted)
    ensures more + [KeyOf(key, p)] == written + Keys(key, accepted + [p])
  {
    KeysMore(key, accepted, p);
  }

  method DispatchNext(key: KeyFunction, prompt: Prompt, limiter: RateLimiter, ghost queue: seq<Prompt>, ghost written: seq<string>,
                      ghost grants: seq<real>, ghost dedup: seq<string>, ghost accepted: seq<Prompt>) returns (ok: bool)
    requires limiter.Valid() && Sent(key, limiter.store, queue, written, grants, dedup, accepted)
    modifies limiter, limiter.store
    ensures limiter.Valid()
    ensures Sent(key, limiter.store, queue, written, grants, dedup, if ok then accepted + [prompt] else accepted)
    ensures !ok ==> limiter.store.HourFull()
  {
    ok := MayDispatch(limiter, grants, |accepted|);
    if ok {
      WrittenOnce(key, written, accepted, prompt, limiter.store.written);
      Append(key, prompt, limiter);
    }
  }

  method MayDispatch(limiter: RateLimiter, ghost grants: seq<real>, ghost n: nat) returns (ok: bool)
    requires limiter.Valid() && Extended(grants, limiter.store.grants, n)
    modifies limiter, limiter.store`window, limiter.store`grants, limiter.store`clock
    ensures limiter.Valid() && Extended(grants, limiter.store.grants, if ok then n + 1 else n)
    ensures !ok ==> limiter.store.HourFull()
  {
    ghost var granted := limiter.store.grants;
    ok := limiter.TryConsume();
    if ok {
      ExtendedOnce(grants, granted, n, limiter.store.clock);
    }
  }

  method Append(key: KeyFunction, prompt: Prompt, limiter: RateLimiter)
    requires limiter.Valid()
    modifies limiter.store`queue, limiter.store`written
    ensures limiter.Valid()
    ensures limiter.store.queue == old(limiter.store.queue) + [prompt]
    ensures limiter.store.written == old(limiter.store.written) + [KeyOf(key, prompt)]
  {
    limiter.store.queue := limiter.store.queue + [prompt];
    limiter.store.written := limiter.store.written + [KeyOf(key, prompt)];
  }

  /**
   Writes prompts until the limiter refuses: what is accepted is a prefix, and all of them unless the hour is full. The
   queue grows by just that.
   */
  method Dispatch(key: KeyFunction, prompts: seq<Prompt>, limiter: RateLimiter) returns (accepted: seq<Prompt>)
    requires limiter.Valid()
    modifies limiter, limiter.store
    ensures limiter.Valid() && accepted <= prompts
    ensures var store := limiter.store;
            Sent(key, store, old(store.queue), old(store.written), old(store.grants), old(store.dedup), accepted) &&
            (|accepted| < |prompts| ==> store.HourFull())
  {
    accepted := [];
    ghost var queue, written := limiter.store.queue, limiter.store.written;
    ghost var grants, dedup := limiter.store.grants, limiter.store.dedup;
    for i := 0 to |prompts|
      invariant limiter.Valid() && accepted == prompts[..i]
      invariant Sent(key, limiter.store, queue, written, grants, dedup, accepted)
    {
      var ok := DispatchNext(key, prompts[i], limiter, queue, written, grants, dedup, accepted);
      if !ok {
        return;
      }
      accepted := accepted + [prompts[i]];
    }
  }

  /** Dispatching with a limiter made for the occasion. */
  method DispatchFresh(key: KeyFunction, prompts: seq<Prompt>, store: Store) returns (accepted: seq<Prompt>)
    requires store.Valid()
    modifies store
    ensures store.Valid() && accepted <= prompts && store.dedup == old(store.dedup)
    ensures store.queue == old(store.queue) + accepted && store.written == old(store.written) + Keys(key, accepted)
    ensures old(store.grants) <= store.grants && |store.grants| == |old(store.grants)| + |accepted| && (|accepted| < |prompts| ==> store.HourFull())
  {
    var limiter := new RateLimiter(store);
    accepted := Dispatch(key, prompts, limiter);
  }

  function Last(ks: seq<string>, n: nat): seq<string> {
    if |ks| <= n then ks else ks[|ks| - n..]
  }

  /** As long as few keys have been written, all are remembered, each once. */
  ghost predicate RemembersAll(dedup: seq<string>, written: seq<string>) {
    |Elements(written)| <= REMEMBERED ==> Elements(dedup) == Elements(written) && DistinctElements(written)
  }

  /** What the dedup list keeps to: it is short, lists only keys written, and remembers all while they are few. */
  ghost predicate Remembers(dedup: seq<string>, written: seq<string>) {
    RemembersAll(dedup, written) && |dedup| <= REMEMBERED && Elements(dedup) <= Elements(written)
  }

  lemma {:induction false} ElementsJoin(a: seq<string>, b: seq<string>)
    ensures Elements(a + b) == Elements(a) + Elements(b)
  {
  }

  lemma {:induction false} DistinctJoins(a: seq<string>, b: seq<string>)
    requires DistinctElements(a) && DistinctElements(b) && forall i :: 0 <= i < |b| ==> b[i] !in Elements(a)
    ensures DistinctElements(a + b)
  {
    forall i, j | 0 <= i < j < |a + b| ensures (a + b)[i] != (a + b)[j] {
      if i < |a| <= j {
        assert a[i] in Elements(a);
      }
    }
  }

  /** Writing new keys and keeping the last of the list goes on remembering all of them while they are few. */
  lemma {:induction false} StillRemembers(dedup: seq<string>, written: seq<string>, listed: seq<string>, fresh_: seq<string>)
    requires Remembers(dedup, written) && DistinctElements(listed) && Elements(listed) == Elements(dedup)
    requires DistinctElements(fresh_) && forall i :: 0 <= i < |fresh_| ==> fresh_[i] !in Elements(dedup)
    ensures Remembers(Last(listed + fresh_, REMEMBERED), written + fresh_)
  {
    ElementsJoin(written, fresh_);
    ElementsJoin(listed, fresh_);
    SubsetCount(Elements(written), Elements(written + fresh_));
    if |Elements(written + fresh_)| <= REMEMBERED {
      DistinctJoins(listed, fresh_);
      ElementCount(listed + fresh_);
      DistinctJoins(written, fresh_);
    }
  }

  /** The exact condition: the list knows just the keys written if and only if there are at most 200 of them. */
  lemma {:induction false} RemembersIffFew(dedup: seq<string>, written: seq<string>)
    requires Remembers(dedup, written)
    ensures Elements(dedup) == Elements(written) <==> |Elements(written)| <= 200
  {
    ElementCount(dedup);
  }

  /** Beyond that some prompt in the queue has been forgotten. */
  lemma {:induction false} SomeForgotten(key: KeyFunction, dedup: seq<string>, queue: seq<Prompt>)
    requires |dedup| <= REMEMBERED < |Elements(Keys(key, queue))|
    ensures exists i :: 0 <= i < |queue| && KeyOf(key, queue[i]) !in dedup
  {
    var written := Elements(Keys(key, queue));
    ElementCount(dedup);
    if written <= Elements(dedup) {
      SubsetCount(written, Elements(dedup));
    } else {
      var k :| k in written && k !in Elements(dedup);
      var i :| 0 <= i < |Keys(key, queue)| && Keys(key, queue)[i] == k;
      assert KeyOf(key, queue[i]) !in dedup;
    }
  }

  /** The keys of all the signals have been written. */
  ghost predicate AllWritten(key: KeyFunction, signals: seq<Signal>, written: seq<string>) {
    forall s :: s in signals ==> SignalKey(key, s) in written
  }

  lemma {:induction false} PassCovers(key: KeyFunction, signals: seq<Signal>, dedup: seq<string>, before: seq<string>, written: seq<string>)
    requires Elements(dedup) <= Elements(before)
    requires written == before + Keys(key, Synthesized(key, signals, Elements(dedup), 1))
    ensures AllWritten(key, signals, written)
  {
    forall s | s in signals ensures SignalKey(key, s) in written {
      SynthesizedCovers(key, signals, Elements(dedup), 1, s);
      if SignalKey(key, s) in Elements(dedup) {
        assert SignalKey(key, s) in Elements(before);
      }
    }
  }

  /** A list of the set `ks`, each element once. */
  ghost predicate IsListing(listed: seq<string>, ks: set<string>) {
    Elements(listed) == ks && DistinctElements(listed)
  }

  /** What a pass that wrote `added` may leave of the dedup list: the last of the old set in some order and then those. */
  ghost predicate KeepsLast(before: seq<string>, added: seq<string>, after: seq<string>) {
    exists listed :: IsListing(listed, Elements(before)) && after == Last(listed + added, REMEMBERED)
  }

  /** A list of a set in no particular order. */
  method Listed(ks: set<string>) returns (listed: seq<string>)
    ensures IsListing(listed, ks)
  {
    listed := [];
    var left := ks;
    while left != {}
      invariant left <= ks && Elements(listed) == ks - left && DistinctElements(listed)
    {
      var k :| k in left;
      assert k !in Elements(listed);
      ElementsJoin(listed, [k]);
      DistinctJoins(listed, [k]);
      assert Elements([k]) == {k};
      listed := listed + [k];
      left := left - {k};
    }
  }

  /**
   One pass, from the signals collected to the dedup window saved. It writes what the signals give, or the beginning of
   it once the hour is full, under a limiter made from the saved window.
   */
  method RunOnce(key: KeyFunction, store: Store, signals: seq<Signal>, enabled: bool, off: bool)
    returns (prompts: seq<Prompt>, ghost found: seq<Prompt>)
    requires store.Valid() && Remembers(store.dedup, store.written)
    modifies store
    ensures store.Valid() && Remembers(store.dedup, store.written)
    ensures found == if enabled && !off then Synthesized(key, signals, Elements(old(store.dedup)), 1) else []
    ensures prompts <= found && (|prompts| < |found| ==> store.HourFull())
    ensures store.queue == old(store.queue) + prompts && store.written == old(store.written) + Keys(key, prompts)
    ensures old(store.grants) <= store.grants && |store.grants| == |old(store.grants)| + |prompts|
    ensures if enabled && !off then KeepsLast(old(store.dedup), Keys(key, prompts), store.dedup)
            else store.dedup == old(store.dedup)
  {
    if !enabled || off {
      return [], [];
    }
    var dedupWindow := set k | k in store.dedup;
    var new_ := NewPrompts(key, signals, dedupWindow);
    found := new_;
    prompts := WriteNew(key, store, new_, dedupWindow);
  }

  method NewPrompts(key: KeyFunction, signals: seq<Signal>, dedupWindow: set<string>) returns (found: seq<Prompt>)
    ensures found == Synthesized(key, signals, dedupWindow, 1)
    ensures DistinctElements(Keys(key, found)) && forall i :: 0 <= i < |found| ==> Keys(key, found)[i] !in dedupWindow
  {
    found := Synthesize(key, signals, dedupWindow, 0);
    SynthesizedAreNew(key, signals, dedupWindow, 1);
  }

  method WriteNew(key: KeyFunction, store: Store, found: seq<Prompt>, dedupWindow: set<string>) returns (prompts: seq<Prompt>)
    requires store.Valid() && Remembers(store.dedup, store.written) && dedupWindow == Elements(store.dedup)
    requires DistinctElements(Keys(key, found)) && forall i :: 0 <= i < |found| ==> Keys(key, found)[i] !in dedupWindow
    modifies store
    ensures store.Valid() && Remembers(store.dedup, store.written)
    ensures prompts <= found && (|prompts| < |found| ==> store.HourFull())
    ensures store.queue == old(store.queue) + prompts && store.written == old(store.written) + Keys(key, prompts)
    ensures old(store.grants) <= store.grants && |store.grants| == |old(store.grants)| + |prompts|
    ensures KeepsLast(old(store.dedup), Keys(key, prompts), store.dedup)
  {
    prompts := DispatchFresh(key, found, store);
    assert Keys(key, prompts) == Keys(key, found)[..|prompts|];
    SaveDedup(store, dedupWindow, Keys(key, prompts), old(store.written));
  }

  method SaveDedup(store: Store, dedupWindow: set<string>, added: seq<string>, ghost before: seq<string>)
    requires Remembers(store.dedup, before) && dedupWindow == Elements(store.dedup)
    requires DistinctElements(added) && forall i :: 0 <= i < |added| ==> added[i] !in dedupWindow
    modifies store`dedup
    ensures Remembers(store.dedup, before + added) && KeepsLast(old(store.dedup), added, store.dedup)
  {
    var listed := Listed(dedupWindow);
    StillRemembers(store.dedup, before, listed, added);
    store.dedup := Last(listed + added, REMEMBERED);
  }

  // ----- a key written twice -----

  function SignalOf(p: Prompt): Signal {
    Signal(p.intent, p.phase, p.evidence, p.priority)
  }

  lemma {:induction false} OneSignal(key: KeyFunction, p: Prompt, seen: set<string>)
    requires KeyOf(key, p) !in seen
    ensures Synthesized(key, [SignalOf(p)], seen, 1) == [PromptFor(SignalOf(p), 1)]
  {
    assert [SignalOf(p)][..0] == [];
    assert Synthesized(key, [], seen, 1) == [];
    assert KeyOf(key, PromptFor(SignalOf(p), 1)) == KeyOf(key, p);
  }

  /** A pass that meets the signal of a forgotten prompt writes its key once more, unless the hour is full. */
  method WriteAgain(key: KeyFunction, store: Store, p: Prompt)
    requires store.Valid() && Remembers(store.dedup, store.written)
    requires p in store.queue && store.written == Keys(key, store.queue) && KeyOf(key, p) !in store.dedup
    modifies store
    ensures store.HourFull() || !DistinctElements(store.written)
    ensures store.Valid() && |store.grants| <= |old(store.grants)| + 1
  {
    OneSignal(key, p, Elements(store.dedup));
    ghost var before := store.written;
    ghost var i :| 0 <= i < |store.queue| && store.queue[i] == p;
    var prompts, found := RunOnce(key, store, [SignalOf(p)], true, false);
    if |prompts| == 1 {
      assert store.written[i] == before[i] == KeyOf(key, p);
      assert store.written[|before|] == KeyOf(key, prompts[0]);
    }
  }

  lemma {:induction false} NotFull(grants: seq<real>, a: real, b: real)
    ensures InInterval(grants, a, b) <= |grants|
  {
    AtMostSuffix(grants, a, b, 0);
  }

  /** One pass from an empty state under a wide limit writes a prompt for every key. */
  method WriteMany(key: KeyFunction, store: Store, signals: seq<Signal>)
    requires store.Valid() && store.grants == [] && store.written == [] && store.dedup == [] && store.queue == []
    requires store.max > |signals|
    modifies store
    ensures store.Valid() && Remembers(store.dedup, store.written) && |store.grants| <= |signals|
    ensures store.written == Keys(key, store.queue)
    ensures |Elements(store.written)| == |Synthesized(key, signals, {}, 1)|
  {
    SynthesizedIsShort(key, signals, {}, 1);
    SynthesizedAreNew(key, signals, {}, 1);
    assert Elements([]) == {};
    var prompts, found := RunOnce(key, store, signals, true, false);
    NotFull(store.grants, store.clock - 3600.0, store.clock);
    assert prompts == found;
    ElementCount(store.written);
  }

  /** Two passes from an empty state: more than 200 new keys, then the signal of one that is no longer in the list. */
  method WriteTwice(key: KeyFunction, signals: seq<Signal>) returns (store: Store)
    requires |Synthesized(key, signals, {}, 1)| > 200
    ensures store.Valid() && !DistinctElements(store.written)
  {
    store := new Store(|signals| + 2);
    WriteMany(key, store, signals);
    SomeForgotten(key, store.dedup, store.queue);
    var i :| 0 <= i < |store.queue| && KeyOf(key, store.queue[i]) !in store.dedup;
    WriteAgain(key, store, store.queue[i]);
    NotFull(store.grants, store.clock - 3600.0, store.clock);
  }

  /** Signals whose keys all differ all give prompts. */
  lemma {:induction false} DistinctSignalsStay(key: KeyFunction, signals: seq<Signal>)
    requires forall i, j :: 0 <= i < j < |signals| ==> SignalKey(key, signals[i]) != SignalKey(key, signals[j])
    ensures |Synthesized(key, signals, {}, 1)| == |signals|
    ensures forall i :: 0 <= i < |signals| ==> KeyOf(key, Synthesized(key, signals, {}, 1)[i]) == SignalKey(key, signals[i])
  {
    if signals != [] {
      var n := |signals| - 1;
      DistinctSignalsStay(key, signals[..n]);
      assert KeyOf(key, PromptFor(signals[n], 1)) == SignalKey(key, signals[n]);
    }
  }

  /** Enough signals for that: `n` different intents, told apart as they are. */
  lemma {:induction false} ManySignals(n: nat) returns (key: KeyFunction, signals: seq<Signal>)
    ensures |signals| == n && |Synthesized(key, signals, {}, 1)| == n
  {
    key := (phase, intent) => intent;
    signals := seq(n, i requires 0 <= i < n => Signal(Str(i), PLAN, [], 0));
    forall i, j | 0 <= i < j < n ensures SignalKey(key, signals[i]) != SignalKey(key, signals[j]) {
      if Str(i) == Str(j) {
        StrInjective(i, j);
      }
    }
    DistinctSignalsStay(key, signals);
  }

  lemma {:induction false} IntervalGrows(grants: seq<real>, more: seq<real>, a: real, b: real)
    requires grants <= more
    ensures InInterval(grants, a, b) <= InInterval(more, a, b)
  {
    if grants != more {
      assert grants <= more[..|more| - 1];
      IntervalGrows(grants, more[..|more| - 1], a, b);
    }
  }

  /** Some hour has seen as many grants as are allowed. */
  ghost predicate SomeHourFull(grants: seq<real>, max: int) {
    exists a, b :: b - a <= 3600.0 && InInterval(grants, a, b) >= max
  }

  /** One pass and what it covers. */
  method Pass(key: KeyFunction, store: Store, signals: seq<Signal>, off: bool)
    requires store.Valid() && Remembers(store.dedup, store.written)
    modifies store
    ensures store.Valid() && Remembers(store.dedup, store.written)
    ensures old(store.grants) <= store.grants && old(store.written) <= store.written
    ensures |store.grants| - |store.written| == |old(store.grants)| - |old(store.written)|
    ensures off || AllWritten(key, signals, store.written) || SomeHourFull(store.grants, store.max)
  {
    ghost var dedup, before := store.dedup, store.written;
    var prompts, found := RunOnce(key, store, signals, true, off);
    if !off && prompts == found {
      PassCovers(key, signals, dedup, before, store.written);
    }
  }

  lemma {:induction false} StillFull(grants: seq<real>, more: seq<real>, max: int)
    requires grants <= more && SomeHourFull(grants, max)
    ensures SomeHourFull(more, max)
  {
    var a, b :| b - a <= 3600.0 && InInterval(grants, a, b) >= max;
    IntervalGrows(grants, more, a, b);
  }

  /**
   Any number of passes, each with a limiter of its own: the hourly bound holds, few keys means no key twice, and the
   list knows just the keys written exactly while they are few. Every signal of a pass that was not switched off has
   been written, unless in some hour as many prompts were granted as are allowed.
   */
  method Passes(key: KeyFunction, store: Store, passes: seq<seq<Signal>>, offs: seq<bool>)
    requires store.Valid() && store.grants == [] && store.written == [] && store.dedup == [] && store.max >= 0
    requires |offs| == |passes|
    modifies store
    ensures forall a, b :: b - a <= 3600.0 ==> InInterval(store.grants, a, b) <= store.max
    ensures |Elements(store.written)| <= 200 ==> DistinctElements(store.written)
    ensures Elements(store.dedup) == Elements(store.written) <==> |Elements(store.written)| <= 200
    ensures |store.grants| == |store.written|
    ensures SomeHourFull(store.grants, store.max) ||
            forall i :: 0 <= i < |passes| && !offs[i] ==> AllWritten(key, passes[i], store.written)
  {
    for i := 0 to |passes|
      invariant store.Valid() && Remembers(store.dedup, store.written) && |store.grants| == |store.written|
      invariant SomeHourFull(store.grants, store.max) ||
                forall j :: 0 <= j < i && !offs[j] ==> AllWritten(key, passes[j], store.written)
    {
      ghost var grants, written := store.grants, store.written;
      Pass(key, store, passes[i], offs[i]);
      if SomeHourFull(grants, store.max) {
        StillFull(grants, store.grants, store.max);
      } else {
        forall j | 0 <= j < i && !offs[j] ensures AllWritten(key, passes[j], store.written) {
          assert AllWritten(key, passes[j], written);
        }
      }
    }
    RemembersIffFew(store.dedup, store.written);
    forall a, b | b - a <= 3600.0 ensures InInterval(store.grants, a, b) <= store.max {
      IntervalHoldsAtMost(store.grants, store.max, a, b);
    }
  }
}
