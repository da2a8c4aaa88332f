/** How often a step executes in one visit, and how long it waits before each
    repeat. */
module Pacing {
  import opened Text
  import opened Values
  import opened Template
  import opened Session
  import opened Executor

  datatype Options = Options(maxIterations: int, maxRetries: int, retryDelay: int)

  // ---- repeats --------------------------------------------------------

  function StepMaxIterations(step: Step): (n: nat)
    ensures n >= 1
  {
    if step.repeatUntil != "" then
      if step.maxRepeat > 0 then step.maxRepeat else 0x7FFF_FFFF
    else if step.repeat > 1 then step.repeat
    else 1
  }

  function EffectiveRetries(opts: Options): (n: nat)
    ensures n >= 1
  {
    if opts.maxRetries <= 0 then 1 else opts.maxRetries
  }

  /** The most executions one visit to a step can take. */
  function StepBudget(step: Step, opts: Options): nat {
    StepMaxIterations(step) * (EffectiveRetries(opts) + 1)
  }

  function Budget(steps: seq<Step>, opts: Options): nat {
    if steps == [] then 0
    else Budget(steps[..|steps| - 1], opts) + StepBudget(steps[|steps| - 1], opts)
  }

  lemma {:induction false} BudgetMonotone(steps: seq<Step>, opts: Options, n: nat)
    requires n <= |steps|
    ensures Budget(steps[..n], opts) <= Budget(steps, opts)
    decreases |steps| - n
  {
    if n == |steps| {
      assert steps[..n] == steps;
    } else {
      assert steps[..n + 1][..n] == steps[..n];
      BudgetMonotone(steps, opts, n + 1);
    }
  }

  // Steps up to i, with i before the last, plus the last.
  lemma JumpWithinBudget(steps: seq<Step>, opts: Options, i: nat)
    requires i < |steps| - 1
    ensures Budget(steps[..i + 1], opts) + StepBudget(steps[|steps| - 1], opts) <= Budget(steps, opts)
  {
    var init := steps[..|steps| - 1];
    assert init[..i + 1] == steps[..i + 1];
    BudgetMonotone(init, opts, i + 1);
  }

  function Times(a: nat, b: nat): nat {
    a * b
  }

  lemma TimesNext(i: nat, each: nat)
    ensures Times(i + 1, each) == Times(i, each) + each
  {
  }

  lemma TimesMonotone(i: nat, m: nat, each: nat)
    requires i <= m
    ensures Times(i, each) <= Times(m, each)
  {
    assert (m - i) * each >= 0;
  }

  lemma BudgetTimes(step: Step, opts: Options)
    ensures StepBudget(step, opts) == Times(StepMaxIterations(step), EffectiveRetries(opts) + 1)
  {
    hide StepMaxIterations, EffectiveRetries;
  }

  // One more repeat still fits the budget of the step.
  lemma RepeatFits(step: Step, opts: Options, iter: nat, each: nat)
    requires iter < StepMaxIterations(step) && each == EffectiveRetries(opts) + 1
    ensures Times(iter, each) + each == Times(iter + 1, each) <= StepBudget(step, opts)
  {
    hide StepMaxIterations, EffectiveRetries, Times, StepBudget;
    TimesNext(iter, each);
    TimesMonotone(iter + 1, StepMaxIterations(step), each);
    BudgetTimes(step, opts);
  }

  lemma NoRepeats(each: nat)
    ensures Times(0, each) == 0
  {
  }

  // ---- waits ----------------------------------------------------------

  // The scaled validity of the last answer when the step asks for it and there is one, else its own delay.
  function DelayBase(step: Step, last: Option<CCA>): real {
    if step.useValidityTime && last.Some? && last.value.validityTime > 0 then
      last.value.validityTime as real * 1000.0 * (if step.validityScale <= 0.0 then 1.0 else step.validityScale)
    else step.delaySec as real * 1000.0
  }

  /** The whole milliseconds a step asks to wait before a repeat; `random` is
      the jitter draw in [0, 1). */
  function WaitMs(step: Step, last: Option<CCA>, random: real): (ms: nat) {
    var base := DelayBase(step, last);
    if base <= 0.0 && step.delayJitterSec <= 0 then 0
    else
      var delay := base + Jitter(step, random);
      if delay <= 0.0 then 0 else delay.Floor
  }

  const NS_PER_MS: int := 1_000_000

  /** The wait in 64-bit nanoseconds, as the code computes it. `wide` is what the
      platform makes of a float that no int64 can hold. */
  function StepDelay(step: Step, last: Option<CCA>, random: real, wide: int64): int64 {
    var ms := WaitMs(step, last, random);
    Wrap64((if ms < TWO_63 then ms else wide) * NS_PER_MS)
  }

  function Jitter(step: Step, random: real): real {
    if step.delayJitterSec > 0 then random * step.delayJitterSec as real * 1000.0 else 0.0
  }

  lemma DelayBaseNonNegative(step: Step, last: Option<CCA>)
    requires step.delaySec >= 0
    ensures DelayBase(step, last) >= 0.0
  {
    if step.useValidityTime && last.Some? && step.validityScale > 0.0 {
      NonNegativeProduct(last.value.validityTime as real * 1000.0, step.validityScale);
    }
  }

  lemma NonNegativeProduct(x: real, y: real)
    requires x >= 0.0 && y >= 0.0
    ensures x * y >= 0.0
  {
  }

  // The whole jitter.
  function MaxJitter(step: Step): real {
    if step.delayJitterSec > 0 then step.delayJitterSec as real * 1000.0 else 0.0
  }

  lemma JitterRange(step: Step, random: real)
    requires 0.0 <= random < 1.0
    ensures 0.0 <= Jitter(step, random) <= MaxJitter(step)
    ensures step.delayJitterSec <= 0 ==> Jitter(step, random) == 0.0
  {
    if step.delayJitterSec > 0 {
      PartOf(random, step.delayJitterSec as real);
    }
  }

  /** What a step asks for is at least its base in whole milliseconds, and at
      most the base plus the whole jitter. */
  lemma WaitRange(step: Step, last: Option<CCA>, random: real)
    requires 0.0 <= random < 1.0 && step.delaySec >= 0
    ensures DelayBase(step, last) - 1.0 < WaitMs(step, last, random) as real <= DelayBase(step, last) + MaxJitter(step)
  {
    hide DelayBase, Jitter, MaxJitter;
    DelayBaseNonNegative(step, last);
    JitterRange(step, random);
  }

  /** The computed wait is the one asked for if and only if its nanoseconds fit
      in 64 bits. */
  lemma StepDelayExact(step: Step, last: Option<CCA>, random: real, wide: int64)
    ensures StepDelay(step, last, random, wide) == WaitMs(step, last, random) * NS_PER_MS
            <==> WaitMs(step, last, random) * NS_PER_MS < TWO_63
  {
    hide WaitMs;
  }

  // A step that waits three times the Validity-Time.
  function LongWait(): Step {
    Step("UPDATE", map[], [], [], [], [], [], 2, "", 0, 0, 0, true, 3.0)
  }

  function LongValidity(): CCA {
    CCA("", 2001, 0, 0, 4_294_967_295, -1, [])
  }

  /** A wait that does not fit comes out negative and is skipped. */
  lemma LongWaitSkipped(random: real, wide: int64)
    ensures var last := Some(LongValidity());
      StepDelay(LongWait(), last, random, wide) < 0 < WaitMs(LongWait(), last, random)
  {
    var last := Some(LongValidity());
    assert DelayBase(LongWait(), last) == 12_884_901_885_000.0;
    assert WaitMs(LongWait(), last, random) == 12_884_901_885_000;
  }

  lemma PartOf(random: real, x: real)
    requires 0.0 <= random < 1.0 && x >= 0.0
    ensures 0.0 <= random * x <= x
  {
    assert (1.0 - random) * x >= 0.0;
  }
}
