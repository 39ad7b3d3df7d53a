/**
 * The runner and its builder. Each `Run` dispatches the work with the current delay,
 * re-arms the single reset timer (superseding any earlier one) and advances the delay.
 * The timer firing is an explicit event, `ResetFires`, carrying the generation of the
 * timer that fires; only the most recently armed, not yet fired timer has an effect.
 */
module BackoffRunner {
  import opened BackoffSpec

  class ExponentialBackoffRunner {
    var initialIntervalMs: Int32
    var maxIntervalMs: Int32
    var resetIntervalMs: Int32
    var multiplier: int
    var currentBackOffMs: Int32

    /** Generation of the most recently armed reset timer; 0 before the first run. */
    var resetTimerGen: nat
    /** Whether that timer is armed and has not fired yet. */
    var resetTimerPending: bool

    /** Runs since construction or since the last reset took effect. */
    ghost var runsSinceReset: nat

    /** The current delay is the one reached by the runs since the last reset. */
    ghost predicate Tracks()
      reads this
    {
      currentBackOffMs == BackOffAfter(initialIntervalMs, maxIntervalMs, multiplier, runsSinceReset)
    }

    ghost predicate Valid()
      reads this
    {
      && Tracks()
      // a run from a negative delay fails, so a negative initial interval never advances
      && (initialIntervalMs < 0 ==> runsSinceReset == 0)
    }

    /** The reset timer of generation `gen` is the one that can still fire. */
    predicate IsLive(gen: nat)
      reads this
    {
      resetTimerPending && gen == resetTimerGen
    }

    ghost predicate WellConfiguredRunner()
      reads this
    {
      WellConfigured(initialIntervalMs, maxIntervalMs, multiplier)
    }

    ghost predicate OrderedRunner()
      reads this
    {
      OrderedConfig(initialIntervalMs, maxIntervalMs, multiplier)
    }

    constructor (initialIntervalMs: Int32, maxIntervalMs: Int32, resetIntervalMs: Int32, multiplier: int)
      ensures Valid()
      ensures this.initialIntervalMs == initialIntervalMs && this.maxIntervalMs == maxIntervalMs
      ensures this.resetIntervalMs == resetIntervalMs && this.multiplier == multiplier
      ensures currentBackOffMs == initialIntervalMs && runsSinceReset == 0
      ensures resetTimerGen == 0 && !resetTimerPending
    {
      this.initialIntervalMs := initialIntervalMs;
      this.maxIntervalMs := maxIntervalMs;
      this.resetIntervalMs := resetIntervalMs;
      this.multiplier := multiplier;
      currentBackOffMs := initialIntervalMs;
      resetTimerGen := 0;
      resetTimerPending := false;
      runsSinceReset := 0;
    }

    /**
     * Dispatches one work item with the current delay `delay`. The dispatch fails when
     * that delay is negative: the sleep before the work rejects it, and the exception
     * leaves `run` before the timer is re-armed or the delay advanced. On success `gen`
     * is the generation of the reset timer this call arms.
     */
    method Run() returns (ok: bool, delay: Int32, gen: nat)
      requires Valid()
      modifies this
      ensures Valid()
      ensures delay == old(currentBackOffMs)
      ensures ok <==> 0 <= delay
      ensures !ok ==> unchanged(this) && gen == resetTimerGen
      ensures ok ==> currentBackOffMs == NextBackOff(old(currentBackOffMs), multiplier, maxIntervalMs)
      ensures ok ==> gen == resetTimerGen == old(resetTimerGen) + 1 && resetTimerPending
      ensures ok ==> forall g :: IsLive(g) <==> g == gen
      ensures ok ==> runsSinceReset == old(runsSinceReset) + 1
      ensures currentBackOffMs <= maxIntervalMs || currentBackOffMs == old(currentBackOffMs)
      ensures initialIntervalMs == old(initialIntervalMs) && maxIntervalMs == old(maxIntervalMs)
      ensures resetIntervalMs == old(resetIntervalMs) && multiplier == old(multiplier)
      ensures WellConfiguredRunner() ==> ok
      ensures WellConfiguredRunner() ==>
        delay == ExpectedInterval(initialIntervalMs, maxIntervalMs, multiplier, old(runsSinceReset))
      ensures OrderedRunner() ==> initialIntervalMs <= currentBackOffMs <= maxIntervalMs
      ensures old(currentBackOffMs) == maxIntervalMs && 1 <= multiplier ==>
        currentBackOffMs == maxIntervalMs
    {
      delay := currentBackOffMs;
      if WellConfiguredRunner() {
        BackOffAfterInRange(initialIntervalMs, maxIntervalMs, multiplier, runsSinceReset);
        BackOffAfterIsExpected(initialIntervalMs, maxIntervalMs, multiplier, runsSinceReset);
      }
      // `post` sleeps `delay` before the work; the sleep throws for a negative duration
      // and only its interruption is caught, so the exception leaves `run` here
      ok := 0 <= delay;
      if !ok {
        gen := resetTimerGen;
        return;
      }
      gen := StartResetBackOffTimer();
      IncrementBackOffTime();
      if WellConfiguredRunner() {
        BackOffAfterInRange(initialIntervalMs, maxIntervalMs, multiplier, runsSinceReset);
      }
      if delay == maxIntervalMs && 1 <= multiplier {
        CapIsFixedPoint(multiplier, maxIntervalMs);
      }
    }

    /** Interrupts any earlier reset timer and arms a new one. */
    method StartResetBackOffTimer() returns (gen: nat)
      requires Valid()
      modifies this`resetTimerGen, this`resetTimerPending
      ensures Valid()
      ensures gen == resetTimerGen == old(resetTimerGen) + 1 && resetTimerPending
    {
      resetTimerGen := resetTimerGen + 1;
      resetTimerPending := true;
      gen := resetTimerGen;
    }

    /** Advances the delay to `min(current * multiplier, max)`, narrowed to `int`. */
    method IncrementBackOffTime()
      requires Tracks()
      modifies this`currentBackOffMs, this`runsSinceReset
      ensures Tracks()
      ensures currentBackOffMs == NextBackOff(old(currentBackOffMs), multiplier, maxIntervalMs)
      ensures runsSinceReset == old(runsSinceReset) + 1
    {
      var product := Sat32(currentBackOffMs * multiplier);
      currentBackOffMs := product;
      if currentBackOffMs > maxIntervalMs {
        currentBackOffMs := maxIntervalMs;
      }
      runsSinceReset := runsSinceReset + 1;
    }

    /**
     * The reset timer of generation `gen` wakes up. The live timer restores the initial
     * delay; a superseded one was interrupted and returns without touching anything.
     */
    method ResetFires(gen: nat) returns (applied: bool)
      requires Valid()
      modifies this
      ensures Valid()
      ensures applied == old(IsLive(gen))
      ensures applied ==> currentBackOffMs == initialIntervalMs && runsSinceReset == 0
      ensures applied ==> !resetTimerPending && resetTimerGen == old(resetTimerGen)
      ensures applied ==> initialIntervalMs == old(initialIntervalMs) && maxIntervalMs == old(maxIntervalMs)
      ensures applied ==> resetIntervalMs == old(resetIntervalMs) && multiplier == old(multiplier)
      ensures !applied ==> unchanged(this)
    {
      applied := IsLive(gen);
      if applied {
        currentBackOffMs := initialIntervalMs;
        resetTimerPending := false;
        runsSinceReset := 0;
      }
    }

    /** The delay the next `Run` would use. */
    method GetCurrentBackOffTimeMs() returns (current: Int32)
      requires Valid()
      ensures current == currentBackOffMs
      ensures OrderedRunner() ==> initialIntervalMs <= current <= maxIntervalMs
      ensures WellConfiguredRunner() ==>
        current == ExpectedInterval(initialIntervalMs, maxIntervalMs, multiplier, runsSinceReset)
    {
      current := currentBackOffMs;
      if WellConfiguredRunner() {
        BackOffAfterInRange(initialIntervalMs, maxIntervalMs, multiplier, runsSinceReset);
        BackOffAfterIsExpected(initialIntervalMs, maxIntervalMs, multiplier, runsSinceReset);
      }
    }
  }

  /** Collects the configuration, with defaults, and builds a runner from it. */
  class Builder {
    var initialIntervalMs: Int32
    var maxIntervalMs: Int32
    var resetIntervalMs: Int32
    var multiplier: int

    constructor ()
      ensures initialIntervalMs == 0 && maxIntervalMs == 1000
      ensures resetIntervalMs == 2000 && multiplier == 2
    {
      initialIntervalMs := 0;
      maxIntervalMs := 1000;
      resetIntervalMs := 2000;
      multiplier := 2;
    }

    method SetInitialIntervalMs(initialIntervalMs: Int32) returns (b: Builder)
      modifies this`initialIntervalMs
      ensures b == this && this.initialIntervalMs == initialIntervalMs
    {
      this.initialIntervalMs := initialIntervalMs;
      b := this;
    }

    method SetMaxIntervalMs(maxIntervalMs: Int32) returns (b: Builder)
      modifies this`maxIntervalMs
      ensures b == this && this.maxIntervalMs == maxIntervalMs
    {
      this.maxIntervalMs := maxIntervalMs;
      b := this;
    }

    method SetResetIntervalMs(resetIntervalMs: Int32) returns (b: Builder)
      modifies this`resetIntervalMs
      ensures b == this && this.resetIntervalMs == resetIntervalMs
    {
      this.resetIntervalMs := resetIntervalMs;
      b := this;
    }

    method SetMultiplier(multiplier: int) returns (b: Builder)
      modifies this`multiplier
      ensures b == this && this.multiplier == multiplier
    {
      this.multiplier := multiplier;
      b := this;
    }

    method Build() returns (r: ExponentialBackoffRunner)
      ensures fresh(r) && r.Valid()
      ensures r.initialIntervalMs == initialIntervalMs && r.maxIntervalMs == maxIntervalMs
      ensures r.resetIntervalMs == resetIntervalMs && r.multiplier == multiplier
      ensures r.currentBackOffMs == initialIntervalMs && r.runsSinceReset == 0
      ensures r.resetTimerGen == 0 && !r.resetTimerPending
    {
      r := new ExponentialBackoffRunner(initialIntervalMs, maxIntervalMs, resetIntervalMs, multiplier);
    }
  }
}
