# ExponentialBackoffRunner in Dafny

A model of `ExponentialBackoffRunner`, a scheduler that runs a work item after a delay
taken from an exponential backoff sequence and resets that sequence once the caller has
been quiet for a while. The runner holds its configuration (initial, maximum and reset
intervals, and the multiplier) and one mutable value, the current back-off delay. Each
`run` dispatches the work with the current delay, re-arms the single reset timer
(interrupting any earlier one), and then advances the delay to `min(current * multiplier,
max)`. The dispatch sleeps for the delay first, and the sleep rejects a negative duration.
So a `run` from a negative delay fails before it re-arms or advances anything. When the
reset timer fires, the delay goes back to the initial interval. A `Builder` supplies
defaults (0, 1000, 2000, 2) and assembles the configuration.

Files:

- `backoff_spec.dfy` (module `BackoffSpec`): Java's `int` range, the narrowing of
  `int *= float` (`Sat32`), one capped step (`NextBackOff`), the delay after `n` runs
  (`BackOffAfter`), the test's closed form `min(initial * multiplier^n, max)`
  (`ExpectedInterval`), and the lemmas relating them.
- `backoff_runner.dfy` (module `BackoffRunner`): the classes `ExponentialBackoffRunner`
  and `Builder`. The runner's invariant `Valid()` ties the current delay to
  `BackOffAfter` applied to a ghost count of runs since construction or the last reset.
  The reset timer is a generation counter plus a "pending" flag. `ResetFires(gen)` is the
  timer's wake-up, and it acts only for the live generation. A superseded timer was
  interrupted, so its wake-up changes nothing.
- `backoff_test.dfy` (module `BackoffTest`): the test's helper `getExpectedInterval`, a
  loop proved equal to `ExpectedInterval`. Also the test's scenario as client methods
  whose results are proved: 1000, 2000, 4000, 8000, 16000, 32000, then 1000 after the
  reset. Three more client methods: a superseded timer that is ignored, a run at the
  cap that stays at the cap, and a negative delay whose runs fail and change nothing.

The model is sequential. The timer firing is an explicit event, not a thread. Dispatch
is the delay value that `Run` returns, together with whether the dispatch succeeded.

The code validates nothing at construction: any `int` intervals and any multiplier are
accepted. The model does the same. The properties below are proved of the model, which
runs each `run` atomically and multiplies exactly (see "## Left out" for where the
program departs from that). They are stated under conditions on the configuration:

- `OrderedConfig` is `initial <= max` and `multiplier >= 1`. Under it the model's current
  delay always lies in `[initial, max]`. A negative initial interval is allowed, because
  every run from it fails.
- `WellConfigured` adds `0 <= initial`. Under it every run of the model succeeds, and the
  n-th run after a reset dispatches with `min(initial * multiplier^n, max)`.

`run` has no check for a missing work item, and the runner has no disposal operation.

## Model

| member | source | states |
|---|---|---|
| `BackoffSpec.Sat32` | app/src/main/java/jli/com/exponentialbackoffrunner/ExponentialBackoffRunner.java:98 | narrowing the product to `int` keeps representable values and otherwise yields the nearest `int` (saturation) |
| `BackoffSpec.NextBackOff` | app/src/main/java/jli/com/exponentialbackoffrunner/ExponentialBackoffRunner.java:97-102 | the advanced delay never exceeds `max` |
| `BackoffSpec.NextBackOffIsMin` | app/src/main/java/jli/com/exponentialbackoffrunner/ExponentialBackoffRunner.java:97-102 | unless the product underflows `int`, one step is exactly `min(current * multiplier, max)` |
| `BackoffSpec.NextBackOffStaysInRange` | app/src/main/java/jli/com/exponentialbackoffrunner/ExponentialBackoffRunner.java:97-102 | for a well-configured runner a step from a delay in `[initial, max]` stays in `[initial, max]` and does not decrease |
| `BackoffSpec.CapIsFixedPoint` | app/src/main/java/jli/com/exponentialbackoffrunner/ExponentialBackoffRunner.java:98-101 | a step from `max` (with `max >= 0`, `multiplier >= 1`) stays at `max` |
| `BackoffSpec.BackOffAfterInRange` | app/src/main/java/jli/com/exponentialbackoffrunner/ExponentialBackoffRunner.java:48-102 | starting from a non-negative initial interval, every delay reached by runs lies in `[initial, max]` when well configured |
| `BackoffSpec.BackOffNonDecreasing` | app/src/main/java/jli/com/exponentialbackoffrunner/ExponentialBackoffRunner.java:97-102 | successive delays never decrease when well configured |
| `BackoffSpec.CapIsIdempotent` | app/src/main/java/jli/com/exponentialbackoffrunner/ExponentialBackoffRunner.java:98-101 | once the delay reaches `max`, every later run keeps it at `max` |
| `BackoffSpec.BackOffAfterIsExpected` | app/src/test/java/jli/com/exponentialbackoffrunner/ExponentialBackoffRunnerTest.java:85-95 | the delay after `n` runs equals the test's reference `min(initial * multiplier^n, max)` when well configured |
| `BackoffRunner.ExponentialBackoffRunner.constructor` | app/src/main/java/jli/com/exponentialbackoffrunner/ExponentialBackoffRunner.java:48-55 | stores the four settings, and the current delay is the initial interval; no reset timer is armed |
| `BackoffRunner.ExponentialBackoffRunner.Run` | app/src/main/java/jli/com/exponentialbackoffrunner/ExponentialBackoffRunner.java:57-61 | dispatches with the delay held before the call; succeeds exactly when that delay is not negative, and a failed run changes nothing; a successful run arms a new timer that becomes the only live one and advances the delay by the capped step; the configuration is unchanged; under `OrderedConfig` the delay stays in `[initial, max]`; when well configured, every run succeeds and the n-th run since a reset dispatches with `min(initial * multiplier^n, max)`; with `multiplier >= 1`, a run at the cap stays at the cap for every `max` |
| `BackoffRunner.ExponentialBackoffRunner.StartResetBackOffTimer` | app/src/main/java/jli/com/exponentialbackoffrunner/ExponentialBackoffRunner.java:63-81 | the earlier timer is superseded; a new generation is armed; only the timer fields change |
| `BackoffRunner.ExponentialBackoffRunner.IncrementBackOffTime` | app/src/main/java/jli/com/exponentialbackoffrunner/ExponentialBackoffRunner.java:97-102 | the current delay becomes the narrowed, capped product; only the delay changes |
| `BackoffRunner.ExponentialBackoffRunner.ResetFires` | app/src/main/java/jli/com/exponentialbackoffrunner/ExponentialBackoffRunner.java:71-78 | the live timer restores the initial interval and is no longer pending; any other timer (interrupted) leaves the whole state unchanged |
| `BackoffRunner.ExponentialBackoffRunner.GetCurrentBackOffTimeMs` | app/src/main/java/jli/com/exponentialbackoffrunner/ExponentialBackoffRunner.java:104-106 | a pure read of the current delay; under `OrderedConfig` it lies in `[initial, max]`; when well configured it equals the reference interval for the runs since the last reset |
| `BackoffRunner.Builder.constructor` | app/src/main/java/jli/com/exponentialbackoffrunner/ExponentialBackoffRunner.java:8-13 | defaults: initial 0, max 1000, reset 2000, multiplier 2 |
| `BackoffRunner.Builder.SetInitialIntervalMs` | app/src/main/java/jli/com/exponentialbackoffrunner/ExponentialBackoffRunner.java:15-18 | sets only the initial interval and returns the same builder |
| `BackoffRunner.Builder.SetMaxIntervalMs` | app/src/main/java/jli/com/exponentialbackoffrunner/ExponentialBackoffRunner.java:20-23 | sets only the maximum interval and returns the same builder |
| `BackoffRunner.Builder.SetResetIntervalMs` | app/src/main/java/jli/com/exponentialbackoffrunner/ExponentialBackoffRunner.java:25-28 | sets only the reset interval and returns the same builder |
| `BackoffRunner.Builder.SetMultiplier` | app/src/main/java/jli/com/exponentialbackoffrunner/ExponentialBackoffRunner.java:30-33 | sets only the multiplier and returns the same builder |
| `BackoffRunner.Builder.Build` | app/src/main/java/jli/com/exponentialbackoffrunner/ExponentialBackoffRunner.java:35-37 | a new runner carrying the builder's four settings, with the current delay at the initial interval |
| `BackoffTest.GetExpectedInterval` | app/src/test/java/jli/com/exponentialbackoffrunner/ExponentialBackoffRunnerTest.java:85-95 | the loop computes `min(initial * multiplier^runCount, max)` (with no multiplication for a non-positive count) and never exceeds `max` |
| `BackoffTest.RunAndCheckIntervals` | app/src/test/java/jli/com/exponentialbackoffrunner/ExponentialBackoffRunnerTest.java:18-83 | six runs with 1000/32000/2 all succeed, so the work is dispatched six times; they dispatch with 1000, 2000, 4000, 8000, 16000, 32000, matching the reference helper each time; after the last timer fires the current delay is 1000 |
| `BackoffTest.SupersededTimerScenario` | app/src/main/java/jli/com/exponentialbackoffrunner/ExponentialBackoffRunner.java:63-78 | after two runs the first timer's firing is ignored (the delay stays 4000); the second timer's firing restores 1000 |
| `BackoffTest.NegativeDelayScenario` | app/src/main/java/jli/com/exponentialbackoffrunner/ExponentialBackoffRunner.java:57-95 | with initial -5 both runs fail, the delay stays -5 and no reset timer is armed |
| `BackoffTest.CapScenario` | app/src/main/java/jli/com/exponentialbackoffrunner/ExponentialBackoffRunner.java:98-101 | with 1000/2000/3 all four runs dispatch, with 1000, 2000, 2000, 2000: the cap persists |

## Left out

- Threads and time: thread creation, `Thread.sleep`, `interrupt` and the test's
  100 ms timing tolerance. The reset timer's firing is the explicit event `ResetFires`.
- `BackoffRunner.ExponentialBackoffRunner.Run`: the model takes a run as one atomic step,
  so a dispatch can never be followed by a reset before that same run's advance. In the
  program, `run` sleeps for the dispatch delay on the caller's thread, and only after that
  does it interrupt the earlier reset timer. So the earlier timer stays live for the whole
  dispatch sleep. Suppose the caller pauses for longer than the reset interval but less
  than delay plus reset interval. Then that timer fires inside `run`, after the grown delay
  was dispatched, and the advance starts from the initial value. With initial 1000, max
  32000, reset 1000, multiplier 2 and 1500 ms pauses the program dispatches 1000, 2000, 2000; the model cannot produce that
  sequence (its second 2000 would be followed by 4000 or 1000). In the program a call made
  before the deadline therefore does not always prevent the reset.
- The dispatch sleep in `post`. `post` runs the work synchronously after sleeping. The
  model returns the delay instead of sleeping; it keeps only the sleep's rejection of a
  negative duration.
- `BackoffRunner.ExponentialBackoffRunner.ResetFires`: the model lets the live timer
  fire in every configuration. The source's timer thread sleeps for
  `mCurrentBackOffTimeMs + mResetIntervalMs`, an `int` sum, using the delay it reads when
  it starts (before or after that run's advance). The sleep throws when that sum is below
  zero. That happens for a reset interval more negative than the delay is positive
  (delay 1000 with reset -1500), for a negative delay reached through a negative multiplier
  (initial 5, max 10, reset 2, multiplier -1: the thread may read -5, and -5 + 2 = -3),
  and when the sum wraps (max 2147483647 at the cap with reset 2000). Then the exception is uncaught, the thread dies,
  and the source does not restore the initial interval. A negative reset interval that
  leaves the sum non-negative (delay 1000 with reset -500) only shortens the sleep, and the
  reset happens as in the model.
- The reset timer's sleep duration. The source reads `mCurrentBackOffTimeMs` when the timer
  thread starts, which races with the increment. The model keeps the deadline abstract.
- Data races. These are the unsynchronised write in the reset callback and the
  unsynchronised read in `getCurrentBackOffTimeMs`. A timer that wakes just as it is
  interrupted, and so resets anyway, is also not modelled. In the model every transition is
  atomic.
- The float multiplier. It is an integer, as in the test. Narrowing back to `int` is
  modelled with saturation. Fractional multipliers and float rounding are not modelled.
  Above 2^24 the conversion to `float` rounds the delay itself, so the range,
  non-decrease and cap properties hold of the model but not always of the program: with
  initial 16777217 and multiplier 1 the first run leaves 16777216, below initial, and
  with max 16777217 and multiplier 1 the cap is not a fixed point.
- The work item: its behaviour and its exceptions. This includes the exception a null or
  throwing runnable raises inside `run`, which would skip re-arming the timer and advancing
  the delay.
- The unused `android.os.Handler` import.
- `BackoffTest.GetExpectedInterval`: the test computes in `long`. The model uses unbounded
  integers and does not model `long` overflow for very large run counts.
- After the live timer fires, the source keeps a reference to the finished thread. The
  model only records that no timer is pending, because interrupting a finished thread
  has no effect.
