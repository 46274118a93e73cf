/** One operation's retry state, driven by any sequence of calls. */
module RetryState {
  import opened Base
  import opened Retry

  const U64_MAX: nat := 18446744073709551615

  datatype StopReason =
    | Completed | NotRetryable | ClassifierStopped | BudgetExhausted | Disabled | UnsafeToReplay | Cancelled | TimedOut
    | Shutdown | PolicyFailed

  datatype StateError =
    | Finished
    | AttemptsExhausted
    | AttemptNotStarted
    | CountOverflow
    | BadSchedule(error: ConfigError)

  datatype Status = Status(attempts: nat, sends: nat, random: bv64, pending: Option<Duration>, stop: Option<StopReason>)

  function Fresh(seed: bv64): (r: Status) { Status(0, 0, seed, None, None) }

  // --------------------------------------------------------------------- generator

  type Unit = u: real | 0.0 <= u < 1.0

  /** A stream of samples: how its state moves on, and what a state yields. */
  datatype Generator = Generator(advance: bv64 -> bv64, sample: bv64 -> Unit)

  // ------------------------------------------------------------------------- calls

  datatype Call = Begin | ReadDelay | RecordSend | Finish(reason: StopReason)

  datatype Reply =
    | Attempt(number: nat)
    | Delay(delay: Option<Duration>)
    | Sent
    | Stopped(selected: bool)
    | Failed(error: StateError)

  predicate CanRetry(s: Schedule, st: Status) { st.stop.None? && 0 < st.attempts < s.maxAttempts }

  function BeginStep(s: Schedule, st: Status): (r: (Status, Reply))
  {
    if st.stop.Some? then (st, Failed(Finished))
    else if st.attempts >= s.maxAttempts || st.attempts == U32_MAX then (st, Failed(AttemptsExhausted))
    else (st.(attempts := st.attempts + 1, pending := None), Attempt(st.attempts + 1))
  }

  function DelayStep(s: Schedule, range: real, g: Generator, st: Status): (r: (Status, Reply))
  {
    if st.attempts == 0 then (st, Failed(AttemptNotStarted))
    else if !CanRetry(s, st) then (st, Delay(None))
    else if st.pending.Some? then (st, Delay(st.pending))
    else
      var random := g.advance(st.random);
      var delay := SampledDelay(s, st.attempts, g.sample(random), range);
      if delay.Err? then (st.(random := random), Failed(BadSchedule(delay.error)))
      else (st.(random := random, pending := Some(delay.value)), Delay(Some(delay.value)))
  }

  function SendStep(st: Status): (r: (Status, Reply))
  {
    if st.stop.Some? then (st, Failed(Finished))
    else if st.attempts == 0 then (st, Failed(AttemptNotStarted))
    else if st.sends == U64_MAX then (st, Failed(CountOverflow))
    else (st.(sends := st.sends + 1), Sent)
  }

  function FinishStep(st: Status, reason: StopReason): (r: (Status, Reply))
  {
    if st.stop.Some? then (st, Stopped(false)) else (st.(stop := Some(reason), pending := None), Stopped(true))
  }

  function Step(s: Schedule, range: real, g: Generator, st: Status, c: Call): (r: (Status, Reply))
  {
    match c
    case Begin => BeginStep(s, st)
    case ReadDelay => DelayStep(s, range, g, st)
    case RecordSend => SendStep(st)
    case Finish(reason) => FinishStep(st, reason)
  }

  class State {
    const schedule: Schedule
    const range: real
    const generator: Generator
    var attempts: nat
    var sends: nat
    var random: bv64
    var pending: Option<Duration>
    var stop: Option<StopReason>

    function Current(): (st: Status)
      reads this
    {
      Status(attempts, sends, random, pending, stop)
    }

    constructor (schedule: Schedule, range: real, generator: Generator, seed: bv64)
      ensures this.schedule == schedule && this.range == range && this.generator == generator
      ensures Current() == Fresh(seed)
    {
      this.schedule, this.range, this.generator := schedule, range, generator;
      attempts, sends, random, pending, stop := 0, 0, seed, None, None;
    }

    method BeginAttempt() returns (r: Reply)
      modifies this
      ensures (Current(), r) == Step(schedule, range, generator, old(Current()), Begin)
      ensures r.Attempt? <==> old(stop).None? && old(attempts) < schedule.maxAttempts && old(attempts) != 0xFFFF_FFFF
      ensures r.Attempt? ==>
                && r.number == attempts == old(attempts) + 1
                && Current() == old(Current()).(attempts := attempts, pending := None)
      ensures !r.Attempt? ==>
                Current() == old(Current()) && r == Failed(if old(stop).Some? then Finished else AttemptsExhausted)
    {
      if stop.Some? { return Failed(Finished); }
      if attempts >= schedule.maxAttempts { return Failed(AttemptsExhausted); }
      if attempts == U32_MAX { return Failed(AttemptsExhausted); }
      attempts := attempts + 1;
      pending := None;
      r := Attempt(attempts);
    }

    method NextUnit() returns (unit: Unit)
      modifies this`random
      ensures random == generator.advance(old(random)) && unit == generator.sample(random)
    {
      random := generator.advance(random);
      unit := generator.sample(random);
    }

    method NextDelay() returns (r: Reply)
      modifies this
      ensures (Current(), r) == Step(schedule, range, generator, old(Current()), ReadDelay)
      ensures old(attempts) == 0 <==> r == Failed(AttemptNotStarted)
      ensures r == Delay(None) <==> old(attempts) > 0 && (old(stop).Some? || old(attempts) >= schedule.maxAttempts)
      ensures r.Delay? && r.delay.Some? && old(pending).None? ==> random == generator.advance(old(random))
      ensures r.Delay? && r.delay.Some? ==>
                Current() == old(Current()).(random := random, pending := r.delay)
                && (old(pending).Some? ==> r.delay == old(pending) && random == old(random))
    {
      if attempts == 0 { return Failed(AttemptNotStarted); }
      if !CanRetry(schedule, Current()) { return Delay(None); }
      if pending.Some? { return Delay(pending); }
      var unit := NextUnit();
      var delay := SampledDelay(schedule, attempts, unit, range);
      if delay.Err? { return Failed(BadSchedule(delay.error)); }
      pending := Some(delay.value);
      r := Delay(pending);
    }

    method RecordTransportSend() returns (r: Reply)
      modifies this
      ensures (Current(), r) == Step(schedule, range, generator, old(Current()), RecordSend)
      ensures r.Sent? <==> old(stop).None? && old(attempts) > 0 && old(sends) != 0xFFFF_FFFF_FFFF_FFFF
      ensures Current() == if r.Sent? then old(Current()).(sends := old(sends) + 1) else old(Current())
      ensures old(stop).Some? <==> r == Failed(Finished)
      ensures old(stop).None? && old(attempts) == 0 <==> r == Failed(AttemptNotStarted)
    {
      if stop.Some? { return Failed(Finished); }
      if attempts == 0 { return Failed(AttemptNotStarted); }
      if sends == U64_MAX { return Failed(CountOverflow); }
      sends := sends + 1;
      r := Sent;
    }

    method FinishWith(reason: StopReason) returns (r: Reply)
      modifies this
      ensures (Current(), r) == Step(schedule, range, generator, old(Current()), Finish(reason))
      ensures r == Stopped(old(stop).None?)
      ensures Current() == if old(stop).Some? then old(Current())
                           else old(Current()).(stop := Some(reason), pending := None)
    {
      if stop.Some? { return Stopped(false); }
      stop := Some(reason);
      pending := None;
      r := Stopped(true);
    }
  }

  // ---------------------------------------------------------------- call sequences

  /** The state after some calls. */
  function After(s: Schedule, range: real, g: Generator, st: Status, calls: seq<Call>): (r: Status)
  {
    if calls == [] then st else Step(s, range, g, After(s, range, g, st, calls[..|calls| - 1]), calls[|calls| - 1]).0
  }

  /** The reply to one of the calls. */
  function ReplyTo(s: Schedule, range: real, g: Generator, st: Status, calls: seq<Call>, i: nat): (r: Reply)
    requires i < |calls|
  {
    Step(s, range, g, After(s, range, g, st, calls[..i]), calls[i]).1
  }

  lemma AfterPrefix(s: Schedule, range: real, g: Generator, st: Status, calls: seq<Call>, i: nat)
    requires i < |calls|
    ensures After(s, range, g, st, calls[..i + 1]) == Step(s, range, g, After(s, range, g, st, calls[..i]), calls[i]).0
  {
    assert calls[..i + 1][..i] == calls[..i];
  }

  /** The attempt count stays within the limit, and the pending delay is the sample for the current attempt. */
  predicate Sound(s: Schedule, range: real, g: Generator, st: Status)
  {
    && st.attempts <= s.maxAttempts && st.sends <= U64_MAX
    && (st.pending.Some? ==>
          CanRetry(s, st) && SampledDelay(s, st.attempts, g.sample(st.random), range) == Ok(st.pending.value))
  }

  lemma StepSound(s: Schedule, range: real, g: Generator, st: Status, c: Call)
    requires Sound(s, range, g, st)
    ensures Sound(s, range, g, Step(s, range, g, st, c).0)
  {
  }

  lemma {:induction false} AfterSound(s: Schedule, range: real, g: Generator, seed: bv64, calls: seq<Call>)
    ensures Sound(s, range, g, After(s, range, g, Fresh(seed), calls))
  {
    if calls != [] {
      AfterSound(s, range, g, seed, calls[..|calls| - 1]);
      StepSound(s, range, g, After(s, range, g, Fresh(seed), calls[..|calls| - 1]), calls[|calls| - 1]);
    }
  }

  /** How many of the first `n` calls were granted an attempt, or counted as sent. */
  function Attempts(s: Schedule, range: real, g: Generator, st: Status, calls: seq<Call>, n: nat): (k: nat)
    requires n <= |calls|
  {
    if n == 0 then 0 else
    Attempts(s, range, g, st, calls, n - 1) + (if ReplyTo(s, range, g, st, calls, n - 1).Attempt? then 1 else 0)
  }

  function Sends(s: Schedule, range: real, g: Generator, st: Status, calls: seq<Call>, n: nat): (k: nat)
    requires n <= |calls|
  {
    if n == 0 then 0 else
    Sends(s, range, g, st, calls, n - 1) + (if ReplyTo(s, range, g, st, calls, n - 1).Sent? then 1 else 0)
  }

  lemma StepCounts(s: Schedule, range: real, g: Generator, st: Status, c: Call)
    ensures var (t, r) := Step(s, range, g, st, c);
            && t.attempts == st.attempts + (if r.Attempt? then 1 else 0)
            && t.sends == st.sends + (if r.Sent? then 1 else 0)
            && (r.Attempt? ==> r.number == t.attempts)
  {
  }

  lemma {:induction false} CountsAreReplies(s: Schedule, range: real, g: Generator, seed: bv64, calls: seq<Call>,
                                            n: nat)
    requires n <= |calls|
    ensures var st := After(s, range, g, Fresh(seed), calls[..n]);
            st.attempts == Attempts(s, range, g, Fresh(seed), calls, n)
            && st.sends == Sends(s, range, g, Fresh(seed), calls, n)
  {
    if n > 0 {
      CountsAreReplies(s, range, g, seed, calls, n - 1);
      AfterPrefix(s, range, g, Fresh(seed), calls, n - 1);
      StepCounts(s, range, g, After(s, range, g, Fresh(seed), calls[..n - 1]), calls[n - 1]);
    }
  }

  /** Attempts are numbered one by one and never exceed the limit, whatever the calls. */
  lemma AttemptsNumbered(s: Schedule, range: real, g: Generator, seed: bv64, calls: seq<Call>, i: nat)
    requires i < |calls|
    ensures Attempts(s, range, g, Fresh(seed), calls, |calls|) <= s.maxAttempts
    ensures var r := ReplyTo(s, range, g, Fresh(seed), calls, i);
            r.Attempt? ==> r.number == Attempts(s, range, g, Fresh(seed), calls, i) + 1
  {
    CountsAreReplies(s, range, g, seed, calls, |calls|);
    CountsAreReplies(s, range, g, seed, calls, i);
    assert calls[..|calls|] == calls;
    AfterSound(s, range, g, seed, calls);
    StepCounts(s, range, g, After(s, range, g, Fresh(seed), calls[..i]), calls[i]);
  }

  lemma UnfinishedDelay(s: Schedule, range: real, g: Generator, st: Status)
    requires Built(s, range) && range >= 0.0 && Sound(s, range, g, st) && CanRetry(s, st)
    ensures var r := DelayStep(s, range, g, st).1;
            r.Delay? && r.delay.Some? && r.delay.value <= Bound(s) && Serves(s, g, st, r.delay.value)
  {
    var unit := g.sample(if st.pending.Some? then st.random else g.advance(st.random));
    SampledWithinBound(s, st.attempts, unit, range);
    SampledExactly(s, st.attempts, unit, range);
  }

  /** The delay of the current attempt's rule, stretched by the sample drawn for it. */
  predicate Serves(s: Schedule, g: Generator, st: Status, delay: real)
  {
    && st.attempts >= 1 && (s.backoff.Sequence? ==> st.attempts <= |s.backoff.delays|)
    && var unit := g.sample(if st.pending.Some? then st.random else g.advance(st.random));
       delay == Jittered(s, RuleDelay(s.backoff, st.attempts), unit)
  }

  /**
   With a built schedule, reading the delay after attempt `k` gives exactly what the rule says
   for retry `k`, stretched by the sample drawn for it, and within the bound.
   */
  lemma DelayServed(s: Schedule, range: real, g: Generator, seed: bv64, calls: seq<Call>)
    requires Built(s, range) && range >= 0.0
    ensures var st := After(s, range, g, Fresh(seed), calls);
            var r := Step(s, range, g, st, ReadDelay).1;
            && (st.attempts == 0 <==> r == Failed(AttemptNotStarted))
            && (st.attempts > 0 && !CanRetry(s, st) ==> r == Delay(None))
            && (CanRetry(s, st) ==>
                  r.Delay? && r.delay.Some? && r.delay.value <= Bound(s) && Serves(s, g, st, r.delay.value))
  {
    var st := After(s, range, g, Fresh(seed), calls);
    AfterSound(s, range, g, seed, calls);
    if CanRetry(s, st) { UnfinishedDelay(s, range, g, st); }
  }

  /** No call on a built schedule is ever answered with a schedule error. */
  lemma NoScheduleError(s: Schedule, range: real, g: Generator, seed: bv64, calls: seq<Call>, i: nat)
    requires Built(s, range) && range >= 0.0 && i < |calls|
    ensures var r := ReplyTo(s, range, g, Fresh(seed), calls, i); !(r.Failed? && r.error.BadSchedule?)
  {
    DelayServed(s, range, g, seed, calls[..i]);
  }

  /** Between two attempts, every read returns the first sample and the generator stands still. */
  lemma {:induction false} RepeatedReads(s: Schedule, range: real, g: Generator, st: Status, calls: seq<Call>)
    requires st.pending.Some? && CanRetry(s, st) && Begin !in calls
    ensures var t := After(s, range, g, st, calls);
            t.random == st.random && t.attempts == st.attempts
            && (if exists i :: 0 <= i < |calls| && calls[i].Finish? then t.stop.Some?
                else t.stop.None? && t.pending == st.pending)
  {
    if calls != [] {
      var n := |calls| - 1;
      RepeatedReads(s, range, g, st, calls[..n]);
      assert forall i :: 0 <= i < n ==> calls[..n][i] == calls[i];
      assert calls[n] in calls;
    }
  }

  lemma SameSample(s: Schedule, range: real, g: Generator, st: Status, calls: seq<Call>)
    requires st.pending.Some? && CanRetry(s, st) && Begin !in calls
    ensures Step(s, range, g, After(s, range, g, st, calls), ReadDelay).1
         == Delay(if exists i :: 0 <= i < |calls| && calls[i].Finish? then None else st.pending)
  {
    RepeatedReads(s, range, g, st, calls);
  }

  /** Once a reason is selected, no call changes anything, and each is refused in its own way. */
  lemma {:induction false} FrozenAfterStop(s: Schedule, range: real, g: Generator, st: Status, calls: seq<Call>,
                                           c: Call)
    requires st.stop.Some?
    ensures After(s, range, g, st, calls) == st
    ensures Step(s, range, g, After(s, range, g, st, calls), c).1
         == match c
            case Finish(_) => Stopped(false)
            case ReadDelay => if st.attempts == 0 then Failed(AttemptNotStarted) else Delay(None)
            case _ => Failed(Finished)
  {
    if calls != [] { FrozenAfterStop(s, range, g, st, calls[..|calls| - 1], calls[|calls| - 1]); }
  }

  // ----------------------------------------------------------------- generator use

  /** The generator's state after some draws. */
  function Moved(g: Generator, seed: bv64, draws: nat): (r: bv64)
  {
    if draws == 0 then seed else g.advance(Moved(g, seed, draws - 1))
  }

  /** Where the generator stands: an attempt still open for a sample has not been drawn for. */
  predicate DrawsOk(st: Status, g: Generator, seed: bv64, draws: nat)
  {
    && st.random == Moved(g, seed, draws) && draws <= st.attempts
    && (st.stop.None? && st.pending.None? && st.attempts > 0 ==> draws < st.attempts)
  }

  predicate Draws(s: Schedule, st: Status, c: Call) { c.ReadDelay? && CanRetry(s, st) && st.pending.None? }

  lemma DrawsStep(s: Schedule, range: real, g: Generator, seed: bv64, st: Status, c: Call, draws: nat)
    requires Built(s, range) && range >= 0.0 && Sound(s, range, g, st) && DrawsOk(st, g, seed, draws)
    ensures DrawsOk(Step(s, range, g, st, c).0, g, seed, if Draws(s, st, c) then draws + 1 else draws)
  {
    if Draws(s, st, c) { UnfinishedDelay(s, range, g, st); }
  }

  /** The generator moves at most once per attempt, whatever the calls. */
  lemma {:induction false} OneDrawPerAttempt(s: Schedule, range: real, g: Generator, seed: bv64, calls: seq<Call>)
    requires Built(s, range) && range >= 0.0
    ensures exists n: nat :: DrawsOk(After(s, range, g, Fresh(seed), calls), g, seed, n)
  {
    if calls == [] {
      assert DrawsOk(After(s, range, g, Fresh(seed), calls), g, seed, 0);
    } else {
      var front, last := calls[..|calls| - 1], calls[|calls| - 1];
      var st := After(s, range, g, Fresh(seed), front);
      OneDrawPerAttempt(s, range, g, seed, front);
      var n: nat :| DrawsOk(st, g, seed, n);
      AfterSound(s, range, g, seed, front);
      DrawsStep(s, range, g, seed, st, last, n);
      assert After(s, range, g, Fresh(seed), calls) == Step(s, range, g, st, last).0;
      var m := if Draws(s, st, last) then n + 1 else n;
      assert DrawsOk(After(s, range, g, Fresh(seed), calls), g, seed, m);
    }
  }
}
