/** The token bucket that paces task bodies: what it grants over any stretch of time, and when a waiter gets through. */
module TokenBucket {

  /** `tokens` and `lastUpdate` as one call leaves them for the next. */
  datatype Bucket = Bucket(tokens: real, lastUpdate: real)

  datatype Settings = Settings(rate: real, burst: real)

  datatype Attempt = Granted | MustWait(seconds: real)

  predicate Usable(c: Settings) {
    c.rate > 0.0 && c.burst >= 0.0
  }

  function Min(a: real, b: real): real {
    if a <= b then a else b
  }

  /** The balance the locked section of `acquire` sees at time `now`. */
  function Balance(c: Settings, b: Bucket, now: real): real {
    Min(c.burst, b.tokens + (now - b.lastUpdate) * c.rate)
  }

  function After(c: Settings, b: Bucket, now: real): Bucket {
    var balance := Balance(c, b, now);
    Bucket(if balance >= 1.0 then balance - 1.0 else 0.0, now)
  }

  predicate Grants(c: Settings, b: Bucket, now: real) {
    Balance(c, b, now) >= 1.0
  }

  class RateLimiter {
    const settings: Settings
    var tokens: real
    var lastUpdate: real

    function State(): Bucket
      reads this
    {
      Bucket(tokens, lastUpdate)
    }

    ghost predicate Valid()
      reads this
    {
      Usable(settings) && 0.0 <= tokens <= settings.burst
    }

    constructor (rate: real, burst: real, now: real)
      requires rate > 0.0 && burst >= 0.0
      ensures Valid() && settings == Settings(rate, burst) && State() == Bucket(burst, now)
    {
      settings := Settings(rate, burst);
      tokens, lastUpdate := burst, now;
    }

    /** The locked section of `acquire`; the caller sleeps for the answer and tries again. */
    method TryAcquire(now: real) returns (answer: Attempt)
      requires Valid() && now >= lastUpdate
      modifies this
      ensures Valid() && State() == After(settings, old(State()), now)
      ensures answer.Granted? <==> Grants(settings, old(State()), now)
      ensures lastUpdate == now
      ensures var refilled := old(tokens) + (now - old(lastUpdate)) * settings.rate;
              var seen := if refilled <= settings.burst then refilled else settings.burst;
              && (answer.Granted? <==> seen >= 1.0) && tokens == (if seen >= 1.0 then seen - 1.0 else 0.0)
              && (answer.MustWait? ==> answer.seconds * settings.rate == 1.0 - seen)
      ensures answer.MustWait? ==>
                answer.seconds > 0.0 && answer.seconds * settings.rate == 1.0 - Balance(settings, old(State()), now)
    {
      var elapsed := now - lastUpdate;
      tokens := Min(settings.burst, tokens + elapsed * settings.rate);
      lastUpdate := now;
      if tokens >= 1.0 {
        tokens := tokens - 1.0;
        return Granted;
      }
      var waitTime := (1.0 - tokens) / settings.rate;
      tokens := 0.0;
      return MustWait(waitTime);
    }
  }

  // ----- how much is granted -----

  /** Calls of the locked section, in the order the lock admits them, by their clock readings. */
  predicate Monotone(start: real, calls: seq<real>) {
    && (calls != [] ==> start <= calls[0])
    && forall i :: 0 <= i < |calls| - 1 ==> calls[i] <= calls[i + 1]
  }

  function Trace(c: Settings, b: Bucket, calls: seq<real>): Bucket
    decreases |calls|
  {
    if calls == [] then b else Trace(c, After(c, b, calls[0]), calls[1..])
  }

  /** The number of calls with a reading in `(from, to]` that are granted. */
  function GrantsIn(c: Settings, b: Bucket, calls: seq<real>, from: real, to: real): nat
    decreases |calls|
  {
    if calls == [] then 0
    else (if Grants(c, b, calls[0]) && from < calls[0] <= to then 1 else 0)
         + GrantsIn(c, After(c, b, calls[0]), calls[1..], from, to)
  }

  predicate Filled(c: Settings, b: Bucket) {
    0.0 <= b.tokens <= c.burst
  }

  /** Tokens are never negative, never above the burst size, and what a call adds is bounded by the time gone by. */
  lemma {:induction false} StepBudget(c: Settings, b: Bucket, now: real)
    requires Usable(c) && Filled(c, b) && b.lastUpdate <= now
    ensures Filled(c, After(c, b, now))
    ensures After(c, b, now).tokens + (if Grants(c, b, now) then 1.0 else 0.0) <= b.tokens + Earned(c, b.lastUpdate, now)
    ensures Grants(c, b, now) ==> After(c, b, now).tokens + 1.0 <= c.burst
  {
    EarnedSplit(c, b.lastUpdate, b.lastUpdate, now);
  }

  function Earned(c: Settings, from: real, to: real): real {
    (to - from) * c.rate
  }

  lemma {:induction false} EarnedSplit(c: Settings, from: real, mid: real, to: real)
    requires c.rate > 0.0 && from <= mid <= to
    ensures Earned(c, from, to) == Earned(c, from, mid) + Earned(c, mid, to)
    ensures Earned(c, from, mid) >= 0.0 && Earned(c, mid, to) >= 0.0
  {
  }

  lemma {:induction false} StaysFilled(c: Settings, b: Bucket, calls: seq<real>)
    requires Usable(c) && Filled(c, b) && Monotone(b.lastUpdate, calls)
    ensures Filled(c, Trace(c, b, calls))
    decreases |calls|
  {
    if calls != [] {
      StepBudget(c, b, calls[0]);
      StaysFilled(c, After(c, b, calls[0]), calls[1..]);
    }
  }

  /** Once the window is open, grants are paid for by the tokens in hand and the time until the end of the window. */
  lemma {:induction false} OpenWindow(c: Settings, b: Bucket, calls: seq<real>, from: real, to: real)
    requires Usable(c) && Filled(c, b) && Monotone(b.lastUpdate, calls) && from < b.lastUpdate <= to
    ensures GrantsIn(c, b, calls, from, to) as real <= b.tokens + Earned(c, b.lastUpdate, to)
    decreases |calls|
  {
    EarnedSplit(c, b.lastUpdate, b.lastUpdate, to);
    if calls != [] && calls[0] > to {
      NothingLater(c, b, calls, from, to);
    } else if calls != [] {
      StepBudget(c, b, calls[0]);
      OpenWindow(c, After(c, b, calls[0]), calls[1..], from, to);
      EarnedSplit(c, b.lastUpdate, calls[0], to);
    }
  }

  lemma {:induction false} NothingLater(c: Settings, b: Bucket, calls: seq<real>, from: real, to: real)
    requires Monotone(b.lastUpdate, calls) && (calls != [] ==> calls[0] > to)
    ensures GrantsIn(c, b, calls, from, to) == 0
    decreases |calls|
  {
    if calls != [] {
      assert calls[1..] != [] ==> calls[1..][0] == calls[1];
      NothingLater(c, After(c, b, calls[0]), calls[1..], from, to);
    }
  }

  /** In any interval `(from, to]` at most `burst + (to - from) * rate` calls are granted. */
  lemma {:induction false} GrantsBounded(c: Settings, b: Bucket, calls: seq<real>, from: real, to: real)
    requires Usable(c) && Filled(c, b) && Monotone(b.lastUpdate, calls) && from <= to
    ensures GrantsIn(c, b, calls, from, to) as real <= c.burst + Earned(c, from, to)
    decreases |calls|
  {
    EarnedSplit(c, from, from, to);
    if calls != [] {
      StepBudget(c, b, calls[0]);
      if calls[0] <= from {
        GrantsBounded(c, After(c, b, calls[0]), calls[1..], from, to);
      } else if calls[0] > to {
        NothingLater(c, b, calls, from, to);
      } else {
        OpenWindow(c, After(c, b, calls[0]), calls[1..], from, to);
        EarnedSplit(c, from, calls[0], to);
      }
    }
  }

  // ----- when a lone waiter gets through -----

  function SleepFor(c: Settings, b: Bucket, now: real): real
    requires c.rate > 0.0
  {
    (1.0 - Balance(c, b, now)) / c.rate
  }

  /** The clock when the lone caller tries again, having overslept by `late`. */
  function WakeAt(c: Settings, b: Bucket, now: real, late: real): real
    requires c.rate > 0.0
  {
    now + SleepFor(c, b, now) + late
  }

  /**
   Refused at balance `t`, the caller loses the `t` tokens and sleeps only for the missing `1 - t`:
   its next try succeeds exactly when it overslept long enough to earn the `t` tokens again.
   */
  lemma {:induction false} NextTry(c: Settings, b: Bucket, now: real, late: real)
    requires Usable(c) && c.burst >= 1.0 && Filled(c, b) && now >= b.lastUpdate && late >= 0.0
    requires !Grants(c, b, now)
    ensures 0.0 <= Balance(c, b, now) < 1.0
    ensures Balance(c, After(c, b, now), WakeAt(c, b, now, late)) ==
            Min(c.burst, 1.0 - Balance(c, b, now) + late * c.rate)
    ensures Grants(c, After(c, b, now), WakeAt(c, b, now, late)) <==> late * c.rate >= Balance(c, b, now)
  {
    assert (now - b.lastUpdate) * c.rate >= 0.0;
    var t, sleep := Balance(c, b, now), SleepFor(c, b, now);
    assert sleep * c.rate == 1.0 - t;
    assert (sleep + late) * c.rate == sleep * c.rate + late * c.rate;
    assert late * c.rate >= 0.0;
  }

  /** The bucket after `n` refused tries with exact sleeps, and the clock of the next one. */
  function Retry(c: Settings, b: Bucket, now: real, n: nat): (Bucket, real)
    requires c.rate > 0.0
  {
    if n == 0 then (b, now)
    else
      var (b', now') := Retry(c, b, now, n - 1);
      (After(c, b', now'), WakeAt(c, b', now', 0.0))
  }

  /** With exact sleeps and a first balance strictly between 0 and 1 the balance alternates between `t` and `1 - t` for ever. */
  lemma {:induction false} ExactSleepStarves(c: Settings, b: Bucket, now: real, n: nat)
    requires Usable(c) && c.burst >= 1.0 && Filled(c, b) && now >= b.lastUpdate
    requires 0.0 < Balance(c, b, now) < 1.0
    ensures var (b', now') := Retry(c, b, now, n);
            Filled(c, b') && now' >= b'.lastUpdate && !Grants(c, b', now') &&
            Balance(c, b', now') == if n % 2 == 0 then Balance(c, b, now) else 1.0 - Balance(c, b, now)
  {
    if n > 0 {
      ExactSleepStarves(c, b, now, n - 1);
      var (b', now') := Retry(c, b, now, n - 1);
      NextTry(c, b', now', 0.0);
      StepBudget(c, b', now');
      assert WakeAt(c, b', now', 0.0) >= now' by {
        assert SleepFor(c, b', now') * c.rate > 0.0;
      }
    }
  }

  /** A caller refused at balance `t` and sleeping exactly is granted by some retry if and only if `t` is 0. */
  lemma {:induction false} ExactSleepEndsIff(c: Settings, b: Bucket, now: real)
    requires Usable(c) && c.burst >= 1.0 && Filled(c, b) && now >= b.lastUpdate && !Grants(c, b, now)
    ensures (exists n: nat :: Grants(c, Retry(c, b, now, n).0, Retry(c, b, now, n).1)) <==> Balance(c, b, now) == 0.0
  {
    NextTry(c, b, now, 0.0);
    if Balance(c, b, now) == 0.0 {
      assert Retry(c, b, now, 0) == (b, now);
      assert Retry(c, b, now, 1) == (After(c, b, now), WakeAt(c, b, now, 0.0));
      assert Grants(c, Retry(c, b, now, 1).0, Retry(c, b, now, 1).1);
    } else {
      forall n: nat ensures !Grants(c, Retry(c, b, now, n).0, Retry(c, b, now, n).1) {
        ExactSleepStarves(c, b, now, n);
      }
    }
  }
}
