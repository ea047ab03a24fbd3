/**
 * The rate-limited fetch: a token bucket paces requests, a bounded retry loop handles status 429
 * (section 4 of RFC 6585). Times are exact reals in milliseconds; the clock never runs backwards.
 */
module TokenBucket {
  import opened Prelude

  function RMin(a: real, b: real): real { if a <= b then a else b }

  function RMax(a: real, b: real): real { if a <= b then b else a }

  /** `Math.ceil`. */
  function Ceil(x: real): int { -((-x).Floor) }

  lemma {:induction false} CeilBound(x: real)
    ensures x <= Ceil(x) as real < x + 1.0
  {
  }

  // ------------------------------------------------------------- the bucket as a value

  datatype Config = Config(maxRps: real, capacity: real)

  predicate ConfigOk(c: Config) { c.maxRps > 0.0 && c.capacity >= 1.0 }

  /** Options as given, clamped to a positive rate and room for one request. */
  function Configured(maxRps: real, burst: Option<real>): Config {
    var rate := RMax(0.001, maxRps);
    Config(rate, RMax(1.0, if burst.Some? then burst.value else rate))
  }

  datatype Bucket = Bucket(tokens: real, last: real)

  predicate BucketOk(c: Config, b: Bucket) { 0.0 <= b.tokens <= c.capacity }

  /** Tokens accrued over an interval. */
  function Accrued(c: Config, interval: real): real { interval / 1000.0 * c.maxRps }

  function Refilled(c: Config, b: Bucket, t: real): Bucket {
    Bucket(RMin(c.capacity, b.tokens + Accrued(c, t - b.last)), t)
  }

  /** One pass of the acquire loop at time `t`: a token is taken when a whole one is there. */
  function Polled(c: Config, b: Bucket, t: real): (Bucket, bool) {
    var r := Refilled(c, b, t);
    if r.tokens >= 1.0 then (r.(tokens := r.tokens - 1.0), true) else (r, false)
  }

  /** How long an unsuccessful pass asks to sleep. */
  function SleepFor(c: Config, tokens: real): int
    requires ConfigOk(c)
  {
    Ceil((1.0 - tokens) / c.maxRps * 1000.0)
  }

  lemma {:induction false} AccruedMonotone(c: Config, x: real, y: real)
    requires ConfigOk(c) && x <= y
    ensures Accrued(c, x) <= Accrued(c, y)
  {
    assert (y - x) / 1000.0 >= 0.0;
    assert (y - x) / 1000.0 * c.maxRps >= 0.0;
    AccruedAdd(c, x, y - x);
  }

  lemma {:induction false} AccruedAdd(c: Config, x: real, y: real)
    ensures Accrued(c, x) + Accrued(c, y) == Accrued(c, x + y)
  {
    assert (x + y) / 1000.0 == x / 1000.0 + y / 1000.0;
  }

  lemma {:induction false} AccruedZero(c: Config)
    ensures Accrued(c, 0.0) == 0.0
  {
  }

  lemma {:induction false} RefilledOk(c: Config, b: Bucket, t: real)
    requires ConfigOk(c) && BucketOk(c, b) && b.last <= t
    ensures Accrued(c, t - b.last) >= 0.0 && BucketOk(c, Refilled(c, b, t))
    ensures BucketOk(c, Polled(c, b, t).0)
  {
    AccruedZero(c);
    AccruedMonotone(c, 0.0, t - b.last);
  }

  // ------------------------------------------------------------------- the limiter

  class Limiter {
    const config: Config
    var tokens: real
    var last: real

    function View(): Bucket
      reads this
    {
      Bucket(tokens, last)
    }

    ghost predicate Valid()
      reads this
    {
      ConfigOk(config) && BucketOk(config, View())
    }

    constructor (maxRps: real, burst: Option<real>, now: real)
      ensures Valid() && config == Configured(maxRps, burst) && View() == Bucket(config.capacity, now)
    {
      config := Configured(maxRps, burst);
      tokens := Configured(maxRps, burst).capacity;
      last := now;
    }

    method Poll(t: real) returns (granted: bool)
      requires Valid() && last <= t
      modifies this
      ensures Valid() && (View(), granted) == Polled(config, old(View()), t)
    {
      RefilledOk(config, View(), t);
      assert (t - last) / 1000.0 * config.maxRps == Accrued(config, t - last);
      tokens := RMin(config.capacity, tokens + (t - last) / 1000.0 * config.maxRps);
      last := t;
      granted := tokens >= 1.0;
      if granted {
        tokens := tokens - 1.0;
      }
    }

    /**
     * `acquire` under a clock that starts at `start` and a sleep that oversleeps by `extra(i)`: it
     * always gets its token, in at most two passes.
     */
    method Acquire(start: real, extra: nat -> real) returns (passes: nat, at: real)
      requires Valid() && last <= start && forall i :: extra(i) >= 0.0
      modifies this
      ensures Valid() && 1 <= passes <= 2 && last == at >= start
      ensures passes == 1 ==> at == start && Polled(config, old(View()), at) == (View(), true)
      ensures passes == 2 ==>
                var first := Polled(config, old(View()), start);
                !first.1 && at == start + SleepFor(config, first.0.tokens) as real + extra(0) &&
                Polled(config, first.0, at) == (View(), true)
    {
      passes, at := 0, start;
      ghost var b0 := View();
      while true
        invariant Valid() && last <= at && at >= start && passes <= 1
        invariant passes == 0 ==> View() == b0 && at == start
        invariant passes == 1 ==>
                    var first := Polled(config, b0, start);
                    !first.1 && View() == first.0 && at == start + SleepFor(config, tokens) as real + extra(0)
        decreases 2 - passes
      {
        ghost var before := View();
        var granted := Poll(at);
        if passes == 1 {
          SecondPassSucceeds(config, before, start, extra(0));
        }
        passes := passes + 1;
        if granted {
          return;
        }
        var wait := Ceil((1.0 - tokens) / config.maxRps * 1000.0);
        SleepIsPositive(config, tokens);
        at := at + wait as real + extra(passes - 1);
      }
    }
  }

  lemma {:induction false} SleepIsPositive(c: Config, tokens: real)
    requires ConfigOk(c) && tokens <= 1.0
    ensures SleepFor(c, tokens) >= 0
  {
    var x := (1.0 - tokens) / c.maxRps * 1000.0;
    assert x >= 0.0;
    CeilBound(x);
  }

  /** After sleeping as long as asked, a whole token has accrued. */
  lemma {:induction false} SecondPassSucceeds(c: Config, b: Bucket, start: real, extra: real)
    requires ConfigOk(c) && b.tokens < 1.0 && b.last == start && extra >= 0.0
    ensures Polled(c, b, start + SleepFor(c, b.tokens) as real + extra).1
  {
    var x := (1.0 - b.tokens) / c.maxRps * 1000.0;
    CeilBound(x);
    var slept := SleepFor(c, b.tokens) as real + extra;
    AccruedMonotone(c, x, slept);
    AccruedIsEnough(c, b.tokens);
    assert (start + SleepFor(c, b.tokens) as real + extra) - b.last == slept;
  }

  lemma {:induction false} AccruedIsEnough(c: Config, tokens: real)
    requires ConfigOk(c)
    ensures Accrued(c, (1.0 - tokens) / c.maxRps * 1000.0) == 1.0 - tokens
  {
    var d := (1.0 - tokens) / c.maxRps;
    assert d * 1000.0 / 1000.0 == d;
    assert d * c.maxRps == 1.0 - tokens;
  }

  // --------------------------------------------------------- grants over every run

  /** The bucket after passes at the given times, in order. */
  function Run(c: Config, b: Bucket, times: seq<real>): Bucket {
    if times == [] then b else Polled(c, Run(c, b, times[..|times| - 1]), times[|times| - 1]).0
  }

  function Grants(c: Config, b: Bucket, times: seq<real>): nat {
    if times == [] then 0
    else Grants(c, b, times[..|times| - 1]) +
         (if Polled(c, Run(c, b, times[..|times| - 1]), times[|times| - 1]).1 then 1 else 0)
  }

  predicate Monotone(from: real, times: seq<real>) {
    && (forall i :: 0 <= i < |times| ==> from <= times[i])
    && (forall i, j :: 0 <= i < j < |times| ==> times[i] <= times[j])
  }

  /** Tokens are conserved: what was granted and what is left never exceed what was there and accrued. */
  lemma {:induction false} TokensConserved(c: Config, b: Bucket, times: seq<real>)
    requires ConfigOk(c) && BucketOk(c, b) && Monotone(b.last, times)
    ensures var r := Run(c, b, times);
            && BucketOk(c, r) && r.last == (if times == [] then b.last else times[|times| - 1])
            && Grants(c, b, times) as real + r.tokens <= b.tokens + Accrued(c, r.last - b.last)
  {
    if times != [] {
      var before, t := times[..|times| - 1], times[|times| - 1];
      TokensConserved(c, b, before);
      var m := Run(c, b, before);
      assert m.last <= t;
      RefilledOk(c, m, t);
      AccruedAdd(c, m.last - b.last, t - m.last);
      assert (m.last - b.last) + (t - m.last) == t - b.last;
    } else {
      AccruedZero(c);
    }
  }

  lemma {:induction false} RunSplit(c: Config, b: Bucket, early: seq<real>, late: seq<real>)
    ensures Run(c, b, early + late) == Run(c, Run(c, b, early), late)
    ensures Grants(c, b, early + late) == Grants(c, b, early) + Grants(c, Run(c, b, early), late)
  {
    if late == [] {
      assert early + late == early;
    } else {
      RunSplit(c, b, early, late[..|late| - 1]);
      assert (early + late)[..|early + late| - 1] == early + late[..|late| - 1];
    }
  }

  /** A bucket that is polled from its first time on grants no more than its capacity plus accrual. */
  lemma {:induction false} BurstBound(c: Config, b: Bucket, times: seq<real>)
    requires ConfigOk(c) && BucketOk(c, b) && times != [] && Monotone(b.last, times)
    ensures Grants(c, b, times) as real <= c.capacity + Accrued(c, times[|times| - 1] - times[0])
  {
    // a bucket refilled at the first pass behaves from there on as the original does
    var full := Refilled(c, b, times[0]);
    RefilledOk(c, b, times[0]);
    SameFromRefill(c, b, full, times);
    TokensConserved(c, full, times);
  }

  /**
   * In any run, however many callers poll, the grants at passes between `from` and `to` number at
   * most the capacity plus the rate times the length of the window.
   */
  lemma {:induction false} WindowBound(c: Config, b: Bucket, times: seq<real>, i: nat, j: nat, from: real, to: real)
    requires ConfigOk(c) && BucketOk(c, b) && Monotone(b.last, times) && i < j <= |times|
    requires from <= times[i] && times[j - 1] <= to
    ensures (Grants(c, b, times[..j]) - Grants(c, b, times[..i])) as real <= c.capacity + Accrued(c, to - from)
  {
    var m, late := Run(c, b, times[..i]), times[i..j];
    MonotoneSlice(c, b, times, i, j);
    GrantsBetween(c, b, times, i, j);
    BurstBound(c, m, late);
    assert late[0] == times[i] && late[|late| - 1] == times[j - 1];
    AccruedMonotone(c, late[|late| - 1] - late[0], to - from);
  }

  lemma {:induction false} GrantsBetween(c: Config, b: Bucket, times: seq<real>, i: nat, j: nat)
    requires i <= j <= |times|
    ensures Grants(c, b, times[..j]) - Grants(c, b, times[..i]) == Grants(c, Run(c, b, times[..i]), times[i..j])
  {
    assert times[..j] == times[..i] + times[i..j];
    RunSplit(c, b, times[..i], times[i..j]);
  }

  lemma {:induction false} MonotoneSlice(c: Config, b: Bucket, times: seq<real>, i: nat, j: nat)
    requires ConfigOk(c) && BucketOk(c, b) && Monotone(b.last, times) && i < j <= |times|
    ensures BucketOk(c, Run(c, b, times[..i])) && Monotone(Run(c, b, times[..i]).last, times[i..j])
  {
    TokensConserved(c, b, times[..i]);
  }

  lemma {:induction false} SameFromRefill(c: Config, b: Bucket, full: Bucket, times: seq<real>)
    requires ConfigOk(c) && BucketOk(c, b) && times != [] && b.last <= times[0] && full == Refilled(c, b, times[0])
    ensures Run(c, b, times) == Run(c, full, times) && Grants(c, b, times) == Grants(c, full, times)
  {
    if |times| == 1 {
      assert times[..0] == [];
      assert Run(c, b, times[..0]) == b && Run(c, full, times[..0]) == full;
      AccruedZero(c);
      assert Grants(c, b, times[..0]) == 0 == Grants(c, full, times[..0]);
    } else {
      SameFromRefill(c, b, full, times[..|times| - 1]);
    }
  }

  // ------------------------------------------------------ nothing is withheld either

  /** Sensible options are taken as given, and without a burst the capacity is one second's worth. */
  lemma {:induction false} OptionsAreKept(maxRps: real, burst: Option<real>)
    requires maxRps >= 0.001
    ensures ConfigOk(Configured(maxRps, burst)) && Configured(maxRps, burst).maxRps == maxRps
    ensures burst.Some? && burst.value >= 1.0 ==> Configured(maxRps, burst).capacity == burst.value
    ensures burst.None? && maxRps >= 1.0 ==> Configured(maxRps, burst).capacity == maxRps
  {
  }

  /** A pass that fails asks for no more sleep than needed: a whole millisecond less would be too short. */
  lemma {:induction false} SleepIsTight(c: Config, tokens: real)
    requires ConfigOk(c) && tokens < 1.0
    ensures tokens + Accrued(c, SleepFor(c, tokens) as real - 1.0) < 1.0 <= tokens + Accrued(c, SleepFor(c, tokens) as real)
  {
    var x := (1.0 - tokens) / c.maxRps * 1000.0;
    CeilBound(x);
    AccruedIsEnough(c, tokens);
    AccruedMonotone(c, x, SleepFor(c, tokens) as real);
    var y := SleepFor(c, tokens) as real - 1.0;
    AccruedAdd(c, y, x - y);
    assert (x - y) / 1000.0 > 0.0;
    ProductStrict((x - y) / 1000.0, c.maxRps);
  }

  lemma {:induction false} ProductStrict(a: real, b: real)
    requires a > 0.0 && b > 0.0
    ensures a * b > 0.0
  {
  }

  /** A burst is served at once: `n` whole tokens are granted to `n` callers of one instant. */
  lemma {:induction false} BurstIsServed(c: Config, b: Bucket, times: seq<real>)
    requires ConfigOk(c) && BucketOk(c, b) && |times| as real <= b.tokens
    requires forall i :: 0 <= i < |times| ==> times[i] == b.last
    ensures Grants(c, b, times) == |times| && Run(c, b, times) == Bucket(b.tokens - |times| as real, b.last)
  {
    if times != [] {
      BurstIsServed(c, b, times[..|times| - 1]);
      AccruedZero(c);
    }
  }

  /** Callers that keep to the rate are never delayed: once served, the next is served a token's time later. */
  lemma {:induction false} PacedCallersAreServed(c: Config, b: Bucket, times: seq<real>)
    requires ConfigOk(c) && BucketOk(c, b) && Monotone(b.last, times)
    requires times != [] ==> Polled(c, b, times[0]).1
    requires forall i :: 0 < i < |times| ==> Accrued(c, times[i] - times[i - 1]) >= 1.0
    ensures Grants(c, b, times) == |times|
  {
    if |times| > 1 {
      var n := |times| - 1;
      PacedCallersAreServed(c, b, times[..n]);
      TokensConserved(c, b, times[..n]);
    } else if |times| == 1 {
      assert times[..0] == [];
    }
  }

  // ------------------------------------------------------------------ the retry loop

  datatype Retry = Retry(maxRetries: int, baseMs: real, maxMs: real)

  function Pow2(n: nat): real { if n == 0 then 1.0 else 2.0 * Pow2(n - 1) }

  /** A Retry-After header, by what it can be read as. */
  datatype RetryAfter = Absent | Seconds(seconds: real) | Date(at: real) | Unreadable

  /** The wait a server asked for, in milliseconds and never negative. */
  function ParseRetryAfter(header: RetryAfter, now: real): Option<real> {
    match header
    case Seconds(s) => Some(RMax(0.0, s * 1000.0))
    case Date(at) => Some(RMax(0.0, at - now))
    case _ => None
  }

  /** The wait before the next attempt: what the server asked for, or capped exponential. */
  function Backoff(r: Retry, attempt: nat, asked: Option<real>): real {
    if asked.Some? then asked.value else RMin(r.maxMs, r.baseMs * Pow2(attempt))
  }

  /** Without a header the wait starts at the base and doubles up to the cap. */
  lemma {:induction false} BackoffDoubles(r: Retry, attempt: nat)
    requires 0.0 <= r.baseMs
    ensures Backoff(r, 0, None) == RMin(r.maxMs, r.baseMs)
    ensures r.maxMs >= 0.0 ==> Backoff(r, attempt + 1, None) == RMin(r.maxMs, 2.0 * Backoff(r, attempt, None))
  {
    assert Pow2(0) == 1.0;
    PowPositive2(attempt);
    ProductPositive(r.baseMs, Pow2(attempt));
    assert r.baseMs * Pow2(attempt + 1) == 2.0 * (r.baseMs * Pow2(attempt));
  }

  lemma {:induction false} PowPositive2(n: nat)
    ensures Pow2(n) > 0.0
  {
    if n > 0 {
      PowPositive2(n - 1);
    }
  }

  /** Jitter only lengthens a wait, by up to half. */
  function Jittered(backoff: real, random: real): real { backoff + (backoff * 0.5 * random).Floor as real }

  /** A client never comes back before the server said, nor more than half as long again after. */
  lemma {:induction false} WaitsAsAsked(r: Retry, attempt: nat, header: RetryAfter, now: real, random: real)
    requires 0.0 <= random < 1.0 && (header.Seconds? || header.Date?)
    ensures var asked := if header.Seconds? then header.seconds * 1000.0 else header.at - now;
            var slept := Jittered(Backoff(r, attempt, ParseRetryAfter(header, now)), random);
            0.0 <= RMax(0.0, asked) <= slept <= RMax(0.0, asked) * 1.5
  {
    var b := Backoff(r, attempt, ParseRetryAfter(header, now));
    JitterBounds(b, random);
  }

  lemma {:induction false} ProductPositive(a: real, b: real)
    requires a >= 0.0 && b >= 0.0
    ensures a * b >= 0.0
  {
  }

  lemma {:induction false} JitterBounds(b: real, random: real)
    requires b >= 0.0 && 0.0 <= random < 1.0
    ensures b <= Jittered(b, random) <= b * 1.5
  {
    var half := b * 0.5;
    ProductPositive(half, random);
    ProductPositive(half, 1.0 - random);
    assert half * random == half - half * (1.0 - random);
    assert 0.0 <= b * 0.5 * random <= half;
  }

  /**
   * One call issues at most `maxRetries + 1` fetches, stops at the first status other than 429, and
   * returns 429 only when every attempt was used up.
   */
  method RateLimitedFetch(r: Retry, status: nat -> nat, header: nat -> RetryAfter, clock: nat -> real, random: nat -> real)
    returns (result: nat, fetches: nat, slept: seq<real>)
    ensures 1 <= fetches <= Max(0, r.maxRetries) + 1
    ensures result == status(fetches - 1)
    ensures forall i :: 0 <= i < fetches - 1 ==> status(i) == 429
    ensures result == 429 ==> fetches == Max(0, r.maxRetries) + 1
    ensures |slept| == fetches - 1
    ensures forall i :: 0 <= i < |slept| ==>
              slept[i] == Jittered(Backoff(r, i, ParseRetryAfter(header(i), clock(i))), random(i))
  {
    var attempt := 0;
    slept := [];
    while true
      invariant attempt <= Max(0, r.maxRetries) && |slept| == attempt
      invariant forall i :: 0 <= i < attempt ==> status(i) == 429
      invariant forall i :: 0 <= i < attempt ==>
                  slept[i] == Jittered(Backoff(r, i, ParseRetryAfter(header(i), clock(i))), random(i))
      decreases Max(0, r.maxRetries) - attempt
    {
      result, fetches := status(attempt), attempt + 1;
      if result != 429 || attempt >= r.maxRetries {
        return;
      }
      var asked := ParseRetryAfter(header(attempt), clock(attempt));
      var backoff := Backoff(r, attempt, asked);
      slept := slept + [Jittered(backoff, random(attempt))];
      attempt := attempt + 1;
    }
  }
}
