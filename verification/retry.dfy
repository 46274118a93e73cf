/**
 Retry schedules: backoff rules, jitter and their validation. Durations are real
 seconds; the monotonic clock's range is the parameter `range`.
 */
module Retry {
  import opened Base

  const MAX_SECONDS: real := 18446744073709551616.0
  const U32_MAX: nat := 4294967295

  type Duration = d: real | 0.0 <= d < MAX_SECONDS

  datatype Backoff =
    | Immediate
    | Constant(delay: Duration)
    | Sequence(delays: seq<Duration>)
    | Exponential(initial: Duration, multiplier: real, max: Duration)

  datatype Jitter = Exact | Full | Proportional(ratio: real)

  datatype Schedule = Schedule(maxAttempts: nat, backoff: Backoff, jitter: Jitter)

  datatype ConfigError =
    | NoAttempts | BadOrdinal | BeyondSequence | WrongLength | BadMultiplier | MaxBelowInitial | BadRatio | BadSample
    | Overflowed | BeyondClock

  // -------------------------------------------------------------------- durations

  predicate OnClock(d: real, range: real) { d <= range }

  function FromSeconds(seconds: real, range: real): (r: Result<Duration, ConfigError>)
  {
    if seconds < 0.0 || seconds >= MAX_SECONDS then Err(Overflowed)
    else if !OnClock(seconds, range) then Err(BeyondClock)
    else Ok(seconds)
  }

  function Scale(delay: Duration, factor: real, range: real): (r: Result<Duration, ConfigError>)
  {
    if factor == 1.0 then (if OnClock(delay, range) then Ok(delay) else Err(BeyondClock))
    else FromSeconds(delay * factor, range)
  }

  // ------------------------------------------------------------------ exponential

  function Pow(b: real, e: nat): (r: real) { if e == 0 then 1.0 else b * Pow(b, e - 1) }

  function CapPower(initial: Duration, max: Duration, power: real, range: real): (r: Result<Duration, ConfigError>)
    requires initial > 0.0
  {
    if initial * power >= max then Ok(max) else FromSeconds(initial * power, range)
  }

  /** The delay by exponentiation alone. */
  function ExponentialDelay(initial: Duration, multiplier: real, max: Duration, ordinal: nat,
                            range: real): (r: Result<Duration, ConfigError>)
    requires ordinal >= 1
  {
    if ordinal == 1 || initial == 0.0 || multiplier == 1.0 || initial == max then Ok(initial)
    else CapPower(initial, max, Pow(multiplier, ordinal - 1), range)
  }

  /** All that is used of a logarithm: it grows, and turns products into sums. */
  ghost predicate IsLog(ln: real -> real) { forall x, y :: 0.0 < x && 0.0 < y ==> LogLaws(ln, x, y) }

  predicate LogLaws(ln: real -> real, x: real, y: real)
  {
    ln(x * y) == ln(x) + ln(y) && (x < y ==> ln(x) < ln(y)) && (y < x ==> ln(y) < ln(x))
  }

  /** The delay as computed: logarithms are compared first, so that a huge ordinal is never exponentiated. */
  function DelayByLogs(ln: real -> real, initial: Duration, multiplier: real, max: Duration, ordinal: nat,
                       range: real): (r: Result<Duration, ConfigError>)
    requires ordinal >= 1 && (multiplier != 1.0 ==> ln(multiplier) != 0.0)
  {
    if ordinal == 1 || initial == 0.0 || multiplier == 1.0 || initial == max then Ok(initial)
    else if (ordinal - 1) as real >= ln(max / initial) / ln(multiplier) then Ok(max)
    else CapPower(initial, max, Pow(multiplier, ordinal - 1), range)
  }

  function Min(a: real, b: real): (r: real) { if a <= b then a else b }

  /** The initial delay multiplied again and again. */
  function Grown(initial: real, multiplier: real, times: nat): (r: real)
  {
    if times == 0 then initial else multiplier * Grown(initial, multiplier, times - 1)
  }

  lemma Grows(x: real, b: real)
    requires b >= 1.0 && x >= 0.0
    ensures b * x >= x
  {
  }

  lemma {:induction false} GrownMonotone(initial: real, multiplier: real, e: nat, f: nat)
    requires initial >= 0.0 && multiplier >= 1.0 && e <= f
    ensures initial <= Grown(initial, multiplier, e) <= Grown(initial, multiplier, f)
    decreases f
  {
    if e < f {
      GrownMonotone(initial, multiplier, e, f - 1);
      Grows(Grown(initial, multiplier, f - 1), multiplier);
    } else if e > 0 {
      GrownMonotone(initial, multiplier, e - 1, e - 1);
      Grows(Grown(initial, multiplier, e - 1), multiplier);
    }
  }

  lemma Reassociate(x: real, b: real, p: real)
    ensures b * (x * p) == x * (b * p)
  {
  }

  lemma {:induction false} GrownIsPower(initial: real, multiplier: real, e: nat)
    ensures Grown(initial, multiplier, e) == initial * Pow(multiplier, e)
  {
    if e > 0 {
      GrownIsPower(initial, multiplier, e - 1);
      Reassociate(initial, multiplier, Pow(multiplier, e - 1));
    }
  }

  lemma {:induction false} GrownByOne(initial: real, multiplier: real, e: nat)
    requires multiplier == 1.0 || initial == 0.0
    ensures Grown(initial, multiplier, e) == initial
  {
    if e > 0 { GrownByOne(initial, multiplier, e - 1); }
  }

  lemma ScaleByPower(initial: real, max: real, p: real)
    requires initial > 0.0
    ensures p >= max / initial <==> initial * p >= max
  {
    var q := max / initial;
    assert q * initial == max;
    if p >= q { assert initial * p >= initial * q; } else { assert initial * p < initial * q; }
  }

  lemma ScaleUp(initial: real, p: real)
    requires initial >= 0.0 && p >= 1.0
    ensures initial * p >= initial
  {
  }

  lemma ScaleMonotone(initial: real, p: real, q: real)
    requires initial >= 0.0 && p <= q
    ensures initial * p <= initial * q
  {
  }

  function Capped(initial: Duration, multiplier: real, max: Duration, ordinal: nat): (r: real)
    requires ordinal >= 1
  {
    Min(Grown(initial, multiplier, ordinal - 1), max)
  }

  lemma CappedBounds(initial: Duration, multiplier: real, max: Duration, ordinal: nat)
    requires ordinal >= 1 && multiplier >= 1.0 && initial <= max
    ensures 0.0 <= initial <= Capped(initial, multiplier, max, ordinal) <= max
  {
    GrownMonotone(initial, multiplier, ordinal - 1, ordinal - 1);
  }

  lemma CapPowerIsMin(initial: Duration, max: Duration, power: real, range: real, x: real)
    requires initial > 0.0 && 0.0 <= x == initial * power && OnClock(max, range)
    ensures CapPower(initial, max, power, range) == Ok(Min(x, max))
  {
    ScaleByPower(initial, max, power);
  }

  lemma ShortcutIsCapped(initial: Duration, multiplier: real, max: Duration, ordinal: nat)
    requires ordinal >= 1 && multiplier >= 1.0 && initial <= max
    requires ordinal == 1 || initial == 0.0 || multiplier == 1.0 || initial == max
    ensures Capped(initial, multiplier, max, ordinal) == initial
  {
    CappedBounds(initial, multiplier, max, ordinal);
    if initial == 0.0 || multiplier == 1.0 { GrownByOne(initial, multiplier, ordinal - 1); }
  }

  lemma {:induction false} PowPositive(b: real, e: nat)
    requires b > 0.0
    ensures Pow(b, e) > 0.0
  {
    if e > 0 { PowPositive(b, e - 1); }
  }

  lemma LogOfOne(ln: real -> real)
    requires IsLog(ln)
    ensures ln(1.0) == 0.0
  {
    assert LogLaws(ln, 1.0, 1.0);
    assert 1.0 * 1.0 == 1.0;
  }

  lemma OneMore(n: real, x: real)
    ensures x * (n + 1.0) == x * n + x
  {
  }

  lemma {:induction false} LogOfPower(ln: real -> real, b: real, e: nat)
    requires IsLog(ln) && b > 0.0
    ensures ln(Pow(b, e)) == ln(b) * e as real
  {
    if e == 0 {
      LogOfOne(ln);
    } else {
      PowPositive(b, e - 1);
      LogOfPower(ln, b, e - 1);
      assert LogLaws(ln, b, Pow(b, e - 1));
      OneMore((e - 1) as real, ln(b));
    }
  }

  /** Comparing an exponent with a quotient of logarithms says whether its power reaches the ratio. */
  lemma LogTest(ln: real -> real, ratio: real, multiplier: real, e: nat)
    requires IsLog(ln) && ratio > 0.0 && multiplier > 1.0
    ensures ln(multiplier) > 0.0 && (e as real >= ln(ratio) / ln(multiplier) <==> Pow(multiplier, e) >= ratio)
  {
    LogOfOne(ln);
    assert LogLaws(ln, 1.0, multiplier);
    PowPositive(multiplier, e);
    LogOfPower(ln, multiplier, e);
    assert LogLaws(ln, Pow(multiplier, e), ratio);
    ScaleByPower(ln(multiplier), ln(ratio), e as real);
  }

  lemma RatioPositive(initial: real, max: real)
    requires 0.0 < initial <= max
    ensures max / initial > 0.0
  {
  }

  /** Comparing logarithms first changes no delay, whichever logarithm is used. */
  lemma LogTestChangesNothing(ln: real -> real, initial: Duration, multiplier: real, max: Duration, ordinal: nat,
                              range: real)
    requires IsLog(ln) && ordinal >= 1 && multiplier >= 1.0 && initial <= max
    ensures multiplier != 1.0 ==> ln(multiplier) != 0.0
    ensures DelayByLogs(ln, initial, multiplier, max, ordinal, range)
         == ExponentialDelay(initial, multiplier, max, ordinal, range)
  {
    if multiplier > 1.0 {
      LogTest(ln, 1.0, multiplier, 0);
      if initial > 0.0 {
        RatioPositive(initial, max);
        ScaleByPower(initial, max, Pow(multiplier, ordinal - 1));
        LogTest(ln, max / initial, multiplier, ordinal - 1);
      }
    }
  }

  /** Shortcuts included, the delay is the capped product, for every ordinal. */
  lemma ExponentialIsCapped(initial: Duration, multiplier: real, max: Duration, ordinal: nat, range: real)
    requires ordinal >= 1 && multiplier >= 1.0 && initial <= max && OnClock(max, range)
    ensures Capped(initial, multiplier, max, ordinal) < MAX_SECONDS
    ensures ExponentialDelay(initial, multiplier, max, ordinal, range) == Ok(Capped(initial, multiplier, max, ordinal))
  {
    CappedBounds(initial, multiplier, max, ordinal);
    if ordinal == 1 || initial == 0.0 || multiplier == 1.0 || initial == max {
      ShortcutIsCapped(initial, multiplier, max, ordinal);
    } else {
      var x := Grown(initial, multiplier, ordinal - 1);
      GrownMonotone(initial, multiplier, ordinal - 1, ordinal - 1);
      GrownIsPower(initial, multiplier, ordinal - 1);
      CapPowerIsMin(initial, max, Pow(multiplier, ordinal - 1), range, x);
    }
  }

  /** Later retries never wait less. */
  lemma CappedNondecreasing(initial: Duration, multiplier: real, max: Duration, k: nat, m: nat)
    requires 1 <= k <= m && multiplier >= 1.0
    ensures Capped(initial, multiplier, max, k) <= Capped(initial, multiplier, max, m)
  {
    GrownMonotone(initial, multiplier, k - 1, m - 1);
  }

  // ----------------------------------------------------------------------- backoff

  function DelayFor(b: Backoff, ordinal: nat, range: real): (r: Result<Duration, ConfigError>)
  {
    if ordinal == 0 then Err(BadOrdinal) else
    var delay: Result<Duration, ConfigError> :=
      match b
      case Immediate => Ok(0.0)
      case Constant(d) => Ok(d)
      case Sequence(ds) => if ordinal - 1 < |ds| then Ok(ds[ordinal - 1]) else Err(BeyondSequence)
      case Exponential(initial, multiplier, max) => ExponentialDelay(initial, multiplier, max, ordinal, range);
    if delay.Ok? && !OnClock(delay.value, range) then Err(BeyondClock) else delay
  }

  function ValidateBackoff(b: Backoff, maxAttempts: nat, range: real): (r: Option<ConfigError>)
  {
    match b
    case Immediate => None
    case Constant(d) => if OnClock(d, range) then None else Some(BeyondClock)
    case Sequence(ds) =>
      if exists i :: 0 <= i < |ds| && !OnClock(ds[i], range) then Some(BeyondClock)
      else if |ds| != (if maxAttempts == 0 then 0 else maxAttempts - 1) then Some(WrongLength) else None
    case Exponential(initial, multiplier, max) =>
      if multiplier < 1.0 then Some(BadMultiplier)
      else if max < initial then Some(MaxBelowInitial)
      else if !OnClock(initial, range) || !OnClock(max, range) then Some(BeyondClock)
      else None
  }

  function Largest(ds: seq<Duration>): (r: Duration)
    ensures forall i :: 0 <= i < |ds| ==> ds[i] <= r
    ensures ds == [] ==> r == 0.0
    ensures ds != [] ==> exists i :: 0 <= i < |ds| && r == ds[i]
  {
    if ds == [] then 0.0 else
    var front := ds[..|ds| - 1];
    var rest, last := Largest(front), ds[|ds| - 1];
    assert forall i :: 0 <= i < |front| ==> ds[i] == front[i];
    if last >= rest then last else rest
  }

  function MaximumDelay(b: Backoff): (r: Duration)
  {
    match b
    case Immediate => 0.0
    case Constant(d) => d
    case Sequence(ds) => Largest(ds)
    case Exponential(_, _, max) => max
  }

  // ------------------------------------------------------------------------ jitter

  function ValidateJitter(j: Jitter, b: Backoff, range: real): (r: Option<ConfigError>)
  {
    if !j.Proportional? then None
    else if j.ratio < 0.0 || j.ratio > 1.0 then Some(BadRatio)
    else if b.Exponential? then None
    else
      var scaled := Scale(MaximumDelay(b), 1.0 + j.ratio, range);
      if scaled.Err? then Some(scaled.error) else None
  }

  function Factor(j: Jitter, unit: real): (r: real)
  {
    match j
    case Exact => 1.0
    case Full => unit
    case Proportional(ratio) => (1.0 - ratio) + 2.0 * ratio * unit
  }

  function ApplyJitter(j: Jitter, delay: Duration, unit: real, b: Backoff,
                       range: real): (r: Result<Duration, ConfigError>)
  {
    if unit < 0.0 || unit > 1.0 then Err(BadSample)
    else if j.Exact? then Ok(delay)
    else Stretch(delay, Factor(j, unit), b, range)
  }

  /** Scaling, held to the maximum of an exponential rule. */
  function Stretch(delay: Duration, factor: real, b: Backoff, range: real): (r: Result<Duration, ConfigError>)
  {
    if b.Exponential? && delay * factor >= b.max then Ok(b.max) else Scale(delay, factor, range)
  }

  // --------------------------------------------------------------------- schedules

  function Build(maxAttempts: nat, b: Backoff, j: Jitter, range: real): (r: Result<Schedule, ConfigError>)
  {
    if maxAttempts == 0 then Err(NoAttempts)
    else if ValidateBackoff(b, maxAttempts, range).Some? then Err(ValidateBackoff(b, maxAttempts, range).value)
    else if ValidateJitter(j, b, range).Some? then Err(ValidateJitter(j, b, range).value)
    else Ok(Schedule(maxAttempts, b, j))
  }

  /** A schedule that came out of the builder. */
  predicate Built(s: Schedule, range: real)
  {
    s.maxAttempts <= U32_MAX && Build(s.maxAttempts, s.backoff, s.jitter, range) == Ok(s)
  }

  function ScheduledDelay(s: Schedule, ordinal: nat, range: real): (r: Result<Duration, ConfigError>)
  {
    if ordinal == 0 || ordinal >= s.maxAttempts then Err(BadOrdinal) else DelayFor(s.backoff, ordinal, range)
  }

  function SampledDelay(s: Schedule, ordinal: nat, unit: real, range: real): (r: Result<Duration, ConfigError>)
  {
    var delay := ScheduledDelay(s, ordinal, range);
    if delay.Err? then delay else ApplyJitter(s.jitter, delay.value, unit, s.backoff, range)
  }

  /** The longest wait a schedule can ask for, checked against the clock when it was built. */
  function Bound(s: Schedule): (r: real)
  {
    if s.jitter.Proportional? && !s.backoff.Exponential? then MaximumDelay(s.backoff) * (1.0 + s.jitter.ratio)
    else MaximumDelay(s.backoff)
  }

  /** What each rule makes the caller wait before retry `k`. */
  function RuleDelay(b: Backoff, k: nat): (r: real)
    requires k >= 1 && (b.Sequence? ==> k <= |b.delays|)
  {
    match b
    case Immediate => 0.0
    case Constant(d) => d
    case Sequence(ds) => ds[k - 1]
    case Exponential(initial, multiplier, max) => Min(initial * Pow(multiplier, k - 1), max)
  }

  /** The maximum of a rule is the longest wait it asks for; an exponential rule's is its cap. */
  lemma MaximumIsReached(b: Backoff)
    ensures b.Exponential? ==> MaximumDelay(b) == b.max
    ensures !b.Exponential? && (b.Sequence? ==> b.delays != []) ==>
              exists k :: 1 <= k && (b.Sequence? ==> k <= |b.delays|) && RuleDelay(b, k) == MaximumDelay(b)
  {
    if b.Sequence? && b.delays != [] {
      var i :| 0 <= i < |b.delays| && MaximumDelay(b) == b.delays[i];
      assert RuleDelay(b, i + 1) == MaximumDelay(b);
    } else if !b.Exponential? && !b.Sequence? {
      assert RuleDelay(b, 1) == MaximumDelay(b);
    }
  }

  /** A delay stretched by a sample between zero and one, never beyond the maximum of an exponential rule. */
  function Jittered(s: Schedule, d: real, unit: real): (r: real)
  {
    var x := match s.jitter
             case Exact => d
             case Full => d * unit
             case Proportional(ratio) => d + ratio * d * (2.0 * unit - 1.0);
    if s.backoff.Exponential? then Min(x, s.backoff.max) else x
  }

  /** The unjittered delay of each retry. */
  lemma DelayExactly(s: Schedule, ordinal: nat, range: real)
    requires Built(s, range) && range >= 0.0 && 1 <= ordinal < s.maxAttempts
    ensures s.backoff.Sequence? ==> ordinal <= |s.backoff.delays|
    ensures ScheduledDelay(s, ordinal, range).Ok?
    ensures ScheduledDelay(s, ordinal, range).value == RuleDelay(s.backoff, ordinal)
  {
    DelayWithinMaximum(s, ordinal, range);
    if s.backoff.Exponential? {
      ExponentialIsCapped(s.backoff.initial, s.backoff.multiplier, s.backoff.max, ordinal, range);
      GrownIsPower(s.backoff.initial, s.backoff.multiplier, ordinal - 1);
    }
  }

  lemma StretchIs(b: Backoff, d: Duration, f: real, range: real)
    requires Stretch(d, f, b, range).Ok?
    ensures Stretch(d, f, b, range).value == if b.Exponential? then Min(d * f, b.max) else d * f
  {
    if f == 1.0 { assert d * f == d; }
  }

  lemma FactorIs(d: real, ratio: real, unit: real)
    ensures d * ((1.0 - ratio) + 2.0 * ratio * unit) == d + ratio * d * (2.0 * unit - 1.0)
  {
    var x := ratio * unit;
    var y := d * ratio;
    assert 2.0 * ratio * unit == 2.0 * x;
    assert d * x == y * unit;
    assert ratio * d * (2.0 * unit - 1.0) == y * (2.0 * unit - 1.0) == 2.0 * (y * unit) - y;
  }

  lemma JitterIs(s: Schedule, d: Duration, unit: real, range: real)
    requires ApplyJitter(s.jitter, d, unit, s.backoff, range).Ok? && d <= MaximumDelay(s.backoff)
    ensures ApplyJitter(s.jitter, d, unit, s.backoff, range).value == Jittered(s, d, unit)
  {
    if !s.jitter.Exact? { StretchIs(s.backoff, d, Factor(s.jitter, unit), range); }
    if s.jitter.Proportional? { FactorIs(d, s.jitter.ratio, unit); }
  }

  /** The delay a sample gives for each retry. */
  lemma SampledExactly(s: Schedule, ordinal: nat, unit: real, range: real)
    requires Built(s, range) && range >= 0.0 && 1 <= ordinal < s.maxAttempts && 0.0 <= unit <= 1.0
    ensures s.backoff.Sequence? ==> ordinal <= |s.backoff.delays|
    ensures SampledDelay(s, ordinal, unit, range).Ok?
    ensures SampledDelay(s, ordinal, unit, range).value == Jittered(s, RuleDelay(s.backoff, ordinal), unit)
  {
    DelayExactly(s, ordinal, range);
    DelayWithinMaximum(s, ordinal, range);
    SampledWithinBound(s, ordinal, unit, range);
    JitterIs(s, ScheduledDelay(s, ordinal, range).value, unit, range);
  }

  /** The unjittered delay of each retry, and its maximum. */
  lemma DelayWithinMaximum(s: Schedule, ordinal: nat, range: real)
    requires Built(s, range) && range >= 0.0 && 1 <= ordinal < s.maxAttempts
    ensures ScheduledDelay(s, ordinal, range).Ok? && ScheduledDelay(s, ordinal, range).value <= MaximumDelay(s.backoff)
    ensures OnClock(ScheduledDelay(s, ordinal, range).value, range)
    ensures s.backoff.Sequence? ==>
              && ordinal <= |s.backoff.delays|
              && ScheduledDelay(s, ordinal, range).value == s.backoff.delays[ordinal - 1]
  {
    if s.backoff.Exponential? {
      ExponentialIsCapped(s.backoff.initial, s.backoff.multiplier, s.backoff.max, ordinal, range);
      CappedBounds(s.backoff.initial, s.backoff.multiplier, s.backoff.max, ordinal);
    }
  }

  lemma FactorInRange(j: Jitter, unit: real)
    requires 0.0 <= unit <= 1.0 && (j.Proportional? ==> 0.0 <= j.ratio <= 1.0)
    ensures 0.0 <= Factor(j, unit) <= Top(j)
  {
    if j.Proportional? {
      var x := j.ratio * unit;
      assert 0.0 <= x <= j.ratio by { ScaleMonotone(j.ratio, unit, 1.0); ScaleMonotone(j.ratio, 0.0, unit); }
      assert 2.0 * j.ratio * unit == 2.0 * x;
    }
  }

  lemma ProductBound(d: real, f: real, dMax: real, fMax: real)
    requires 0.0 <= d <= dMax && 0.0 <= f <= fMax
    ensures 0.0 <= d * f <= dMax * fMax
  {
    ScaleMonotone(d, f, fMax);
    ScaleMonotone(d, 0.0, f);
    assert d * fMax == fMax * d && dMax * fMax == fMax * dMax;
    ScaleMonotone(fMax, d, dMax);
  }

  lemma BoundOnClock(s: Schedule, range: real)
    requires Built(s, range) && range >= 0.0
    ensures OnClock(Bound(s), range) && Bound(s) < MAX_SECONDS
  {
    BuildsExactly(s, range);
  }

  /** The largest factor a jitter rule can apply. */
  function Top(j: Jitter): (r: real) { if j.Proportional? then 1.0 + j.ratio else 1.0 }

  /** Scaling a delay whose scaled length is known to fit. */
  lemma StretchFits(b: Backoff, d: Duration, f: real, range: real, x: real, top: real)
    requires x == d * f && 0.0 <= x && top <= range && top < MAX_SECONDS
    requires if b.Exponential? then b.max == top else x <= top
    ensures Stretch(d, f, b, range).Ok? && Stretch(d, f, b, range).value <= top
  {
    if f == 1.0 { assert x == d; }
  }

  lemma MaximumTimesTop(s: Schedule)
    requires !s.backoff.Exponential?
    ensures MaximumDelay(s.backoff) * Top(s.jitter) == Bound(s)
  {
    var m := MaximumDelay(s.backoff);
    if !s.jitter.Proportional? { assert m * 1.0 == m; }
  }

  lemma StretchWithinBound(s: Schedule, d: Duration, f: real, range: real)
    requires Built(s, range) && range >= 0.0 && d <= MaximumDelay(s.backoff) && 0.0 <= f <= Top(s.jitter)
    ensures Stretch(d, f, s.backoff, range).Ok? && Stretch(d, f, s.backoff, range).value <= Bound(s)
  {
    BoundOnClock(s, range);
    ProductBound(d, f, MaximumDelay(s.backoff), Top(s.jitter));
    if !s.backoff.Exponential? { MaximumTimesTop(s); }
    StretchFits(s.backoff, d, f, range, d * f, Bound(s));
  }

  lemma JitterWithinBound(s: Schedule, d: Duration, unit: real, range: real)
    requires Built(s, range) && range >= 0.0 && d <= MaximumDelay(s.backoff) && 0.0 <= unit <= 1.0 && !s.jitter.Exact?
    ensures ApplyJitter(s.jitter, d, unit, s.backoff, range).Ok?
    ensures ApplyJitter(s.jitter, d, unit, s.backoff, range).value <= Bound(s)
  {
    BuildsExactly(s, range);
    FactorInRange(s.jitter, unit);
    StretchWithinBound(s, d, Factor(s.jitter, unit), range);
  }

  /** A built schedule never fails: every retry it allows has a delay, whatever the sample, within the bound. */
  lemma SampledWithinBound(s: Schedule, ordinal: nat, unit: real, range: real)
    requires Built(s, range) && range >= 0.0 && 1 <= ordinal < s.maxAttempts && 0.0 <= unit <= 1.0
    ensures SampledDelay(s, ordinal, unit, range).Ok?
    ensures SampledDelay(s, ordinal, unit, range).value <= Bound(s) <= range
  {
    DelayWithinMaximum(s, ordinal, range);
    BoundOnClock(s, range);
    if !s.jitter.Exact? { JitterWithinBound(s, ScheduledDelay(s, ordinal, range).value, unit, range); }
  }

  /** What a rule must look like before any clock is consulted. */
  predicate WellFormed(s: Schedule)
  {
    && s.maxAttempts > 0
    && (s.backoff.Sequence? ==> |s.backoff.delays| == s.maxAttempts - 1)
    && (s.backoff.Exponential? ==> s.backoff.multiplier >= 1.0 && s.backoff.initial <= s.backoff.max)
    && (s.jitter.Proportional? ==> 0.0 <= s.jitter.ratio <= 1.0)
  }

  lemma MaximumWithinBound(s: Schedule)
    requires WellFormed(s)
    ensures MaximumDelay(s.backoff) <= Bound(s)
  {
    if s.jitter.Proportional? && !s.backoff.Exponential? {
      var top, f := MaximumDelay(s.backoff), 1.0 + s.jitter.ratio;
      ScaleUp(top, f);
      assert Bound(s) == top * f;
    }
  }

  lemma BackoffBuilds(s: Schedule, range: real)
    requires WellFormed(s) && range >= 0.0
    ensures ValidateBackoff(s.backoff, s.maxAttempts, range).None? <==> MaximumDelay(s.backoff) <= range
  {
  }

  lemma ScaleAccepts(delay: Duration, factor: real, range: real)
    requires factor >= 1.0 && delay <= range
    ensures Scale(delay, factor, range).Ok? <==> delay * factor <= range && delay * factor < MAX_SECONDS
  {
    if factor == 1.0 { assert delay * factor == delay; }
    ScaleUp(delay, factor);
  }

  lemma JitterBuilds(s: Schedule, range: real)
    requires WellFormed(s) && range >= 0.0 && MaximumDelay(s.backoff) <= range
    ensures ValidateJitter(s.jitter, s.backoff, range).None? <==> Bound(s) <= range && Bound(s) < MAX_SECONDS
  {
    if s.jitter.Proportional? && !s.backoff.Exponential? {
      ScaleAccepts(MaximumDelay(s.backoff), 1.0 + s.jitter.ratio, range);
    }
  }

  /** The builder accepts exactly the well-formed schedules whose longest possible wait fits the clock. */
  lemma BuildsExactly(s: Schedule, range: real)
    requires range >= 0.0
    ensures Build(s.maxAttempts, s.backoff, s.jitter, range).Ok? <==>
            WellFormed(s) && Bound(s) <= range && Bound(s) < MAX_SECONDS
  {
    if WellFormed(s) {
      BackoffBuilds(s, range);
      MaximumWithinBound(s);
      if MaximumDelay(s.backoff) <= range { JitterBuilds(s, range); }
    }
  }
}
