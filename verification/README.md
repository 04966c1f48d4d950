# KAnimation tweening core, modelled in Dafny

A model of the core of KAnimation, a small Kotlin tweening library, with proofs
about it. The core has three parts:

- **Easing curves** (`easing.dfy`, module `Easing`). These are the polynomial
  curves of `EaseFunctions`: `linear` and the cubic and quint ease-in, ease-out
  and ease-in-out curves. Each maps a time ratio to a progress value. They are
  pure functions over `real`, and `Math.pow(b, n)` with a whole-number exponent
  is the recursive `Pow`.
- **Animation engine** (`engine.dfy`, module `AnimationEngine`). This is the
  timing state machine of one animation. An `Engine` record holds the fixed
  `duration` and `easing` (a function value `real -> real`). It also holds the
  changing `elapsed` and `running` fields. The progress callback is modelled as
  `log`, the sequence of values the callback has received. `start`, `stop`
  and `update` are pure functions from engine to engine; `isRunning` reads the
  flag. `Run` applies one update per delta.
- **Animation manager** (`manager.dfy`, module `AnimationManager`). Engines are
  shared references in the library: the caller keeps one to call `start()`,
  and the manager's list may hold it several times. So each engine is named by
  an `EngineId`, and a `Heap` maps ids to current engine states. A `Manager`
  holds the ordered list of ids, so duplicate entries alias one engine.
  `update` is a method with the library's two passes: a loop that updates every
  entry in list order (`UpdateEach`), then `removeIf` (`RemoveStopped`). The
  functions `Advance` (a fold over the list) and `Survivors` (a filter) are the
  reference definitions the loops are proved against.

Time and progress are `real`. The stop test is kept exactly as written: strictly
`elapsed > duration` (AnimationEngine.kt:48). So an engine whose clock lands
exactly on its duration is still running:

- An update that lands exactly on the duration reports `easing(1)` and leaves
  the engine running. The next update with a positive delta reports `easing(1)`
  again and stops it, so `easing(1)` can be reported twice
  (`ExactLandingKeepsRunning`).
- Two 1-second updates of a 2-second engine leave it running at elapsed 2. A
  third update stops it (`TwoSecondsInTwoSteps`).

## Model

| member | source | states |
|---|---|---|
| `Easing.LinearIsIdentity` | src/main/kotlin/dev/quantam/kanimation/easings/EaseFunctions.kt:17 | `linear` returns its input unchanged |
| `Easing.PowInUnit` | src/main/kotlin/dev/quantam/kanimation/easings/EaseFunctions.kt:57 | a power of a base in [0,1] stays in [0,1] (proved by induction on the exponent) |
| `Easing.PowMonotone` | src/main/kotlin/dev/quantam/kanimation/easings/EaseFunctions.kt:81 | for non-negative bases a <= b, a^n <= b^n |
| `Easing.PowCube` | src/main/kotlin/dev/quantam/kanimation/easings/EaseFunctions.kt:57 | `Math.pow(b, 3.0)` agrees with the product b·b·b |
| `Easing.PowFifth` | src/main/kotlin/dev/quantam/kanimation/easings/EaseFunctions.kt:81 | `Math.pow(b, 5.0)` agrees with the product of five b's |
| `Easing.Endpoints` | src/main/kotlin/dev/quantam/kanimation/easings/EaseFunctions.kt:49-89 | every polynomial curve maps 0 to exactly 0 and 1 to exactly 1 |
| `Easing.InOutCubicBranchesAgree` | src/main/kotlin/dev/quantam/kanimation/easings/EaseFunctions.kt:65 | both branches of easeInOutCubic give 0.5 at the split point 0.5 |
| `Easing.InOutQuintBranchesAgree` | src/main/kotlin/dev/quantam/kanimation/easings/EaseFunctions.kt:89 | both branches of easeInOutQuint give 0.5 at the split point 0.5 |
| `Easing.OutCubicReflectsIn` | src/main/kotlin/dev/quantam/kanimation/easings/EaseFunctions.kt:49-57 | easeOutCubic(x) = 1 − easeInCubic(1 − x) for every real x |
| `Easing.OutQuintReflectsIn` | src/main/kotlin/dev/quantam/kanimation/easings/EaseFunctions.kt:73-81 | easeOutQuint(x) = 1 − easeInQuint(1 − x) for every real x |
| `Easing.InOutCubicLowScaled` | src/main/kotlin/dev/quantam/kanimation/easings/EaseFunctions.kt:65 | the low branch 4x³ is the unit cubic of 2x, halved |
| `Easing.InOutQuintLowScaled` | src/main/kotlin/dev/quantam/kanimation/easings/EaseFunctions.kt:89 | the low branch 16x⁵ is the unit quintic of 2x, halved |
| `Easing.InOutCubicSymmetric` | src/main/kotlin/dev/quantam/kanimation/easings/EaseFunctions.kt:65 | easeInOutCubic(1 − x) = 1 − easeInOutCubic(x) for every real x, including at the split |
| `Easing.InOutQuintSymmetric` | src/main/kotlin/dev/quantam/kanimation/easings/EaseFunctions.kt:89 | easeInOutQuint(1 − x) = 1 − easeInOutQuint(x) for every real x |
| `Easing.InUnit` | src/main/kotlin/dev/quantam/kanimation/easings/EaseFunctions.kt:49-89 | on [0,1] every polynomial curve yields a value in [0,1], the progress range the engine documents |
| `Easing.Monotone` | src/main/kotlin/dev/quantam/kanimation/easings/EaseFunctions.kt:49-89 | on [0,1] every polynomial curve is non-decreasing, across the split of the in-out curves too |
| `Easing.CurveIsWellBehaved` | src/main/kotlin/dev/quantam/kanimation/easings/EaseFunctions.kt:49-89 | a curve handed to an engine as a function value keeps [0,1] in [0,1] and never decreases there |
| `AnimationEngine.New` | src/main/kotlin/dev/quantam/kanimation/AnimationEngine.kt:17-23 | a new engine has the given duration and easing, elapsed 0, is not running and has reported nothing |
| `AnimationEngine.Start` | src/main/kotlin/dev/quantam/kanimation/AnimationEngine.kt:28-30 | start sets running and leaves elapsed, the reports and the configuration as they were |
| `AnimationEngine.Stop` | src/main/kotlin/dev/quantam/kanimation/AnimationEngine.kt:35-37 | stop clears running and leaves elapsed, the reports and the configuration as they were |
| `AnimationEngine.StopIsIdempotent` | src/main/kotlin/dev/quantam/kanimation/AnimationEngine.kt:35-37 | stopping twice is the same as stopping once |
| `AnimationEngine.IsRunning` | src/main/kotlin/dev/quantam/kanimation/AnimationEngine.kt:62-63 | isRunning is exactly the running flag; as a pure function it changes nothing |
| `AnimationEngine.Update` | src/main/kotlin/dev/quantam/kanimation/AnimationEngine.kt:44-55 | a stopped engine is unchanged and reports nothing; a running one gets elapsed = min(old + dt, duration), stays running iff old + dt <= duration (strict stop test), reports exactly one value, the easing of the clamped ratio, which is easing(1) whenever the clock reached the duration; with dt >= 0 the clock stays in [0, duration] |
| `AnimationEngine.Run` | src/main/kotlin/dev/quantam/kanimation/AnimationEngine.kt:18-20 | duration and easing never change across any number of updates |
| `AnimationEngine.RunWhileStopped` | src/main/kotlin/dev/quantam/kanimation/AnimationEngine.kt:45 | any number of updates of a stopped engine change nothing and report nothing |
| `AnimationEngine.RunClock` | src/main/kotlin/dev/quantam/kanimation/AnimationEngine.kt:47-51 | with non-negative deltas a running engine's clock reads min(start + total delta, duration), it stays in [0, duration], and the engine still runs iff the total has not passed the duration |
| `AnimationEngine.RunReports` | src/main/kotlin/dev/quantam/kanimation/AnimationEngine.kt:53-54 | reports are only appended; a still-running engine reported once per update; an engine that stopped during the updates last reported easing(1) |
| `AnimationEngine.ReportsInUnit` | src/main/kotlin/dev/quantam/kanimation/AnimationEngine.kt:53 | with an easing that keeps [0,1] in [0,1] and non-negative deltas, every reported value is in [0,1] |
| `AnimationEngine.ReportsNonDecreasing` | src/main/kotlin/dev/quantam/kanimation/AnimationEngine.kt:53-54 | with a non-decreasing easing and non-negative deltas, the reported values never decrease |
| `AnimationEngine.CurveReports` | src/main/kotlin/dev/quantam/kanimation/AnimationEngine.kt:11 | a fresh engine on a polynomial curve reports values in [0,1], non-decreasing, and its last report after stopping is exactly 1 |
| `AnimationEngine.RestartAfterFinish` | src/main/kotlin/dev/quantam/kanimation/AnimationEngine.kt:28-30 | restarting a finished engine does not rewind it: the next update reports easing(1), and stops it unless dt = 0 |
| `AnimationEngine.ExactLandingKeepsRunning` | src/main/kotlin/dev/quantam/kanimation/AnimationEngine.kt:48-50 | landing exactly on the duration reports easing(1) and keeps running; the next positive update reports easing(1) again and stops |
| `AnimationEngine.TwoSecondsInTwoSteps` | src/main/kotlin/dev/quantam/kanimation/AnimationEngine.kt:44-55 | duration 2 with two updates of 1 reports easing(0.5) then easing(1) and is still running; a third update stops it |
| `AnimationEngine.OvershootClamps` | src/main/kotlin/dev/quantam/kanimation/AnimationEngine.kt:47-51 | duration 1 with one update of 5 ends at elapsed exactly 1, stopped, having reported easing(1) |
| `AnimationManager.Empty` | src/main/kotlin/dev/quantam/kanimation/AnimationManager.kt:12 | a new manager lists no engines |
| `AnimationManager.AddAnimation` | src/main/kotlin/dev/quantam/kanimation/AnimationManager.kt:19-21 | the engine is appended at the end, earlier entries unchanged, and its count grows by one even if already listed |
| `AnimationManager.Advance` | src/main/kotlin/dev/quantam/kanimation/AnimationManager.kt:30-32 | the update pass creates and drops no engines |
| `AnimationManager.Survivors` | src/main/kotlin/dev/quantam/kanimation/AnimationManager.kt:34 | the filtered list is no longer than the input and every entry in it is running |
| `AnimationManager.SurvivorsCount` | src/main/kotlin/dev/quantam/kanimation/AnimationManager.kt:34 | a running engine keeps all its entries and a stopped one loses all of them |
| `AnimationManager.SurvivorsAppend` | src/main/kotlin/dev/quantam/kanimation/AnimationManager.kt:34 | filtering distributes over concatenation, so relative order is preserved |
| `AnimationManager.AdvanceSnoc` | src/main/kotlin/dev/quantam/kanimation/AnimationManager.kt:30-32 | one more entry at the end of the list is one more update of that engine, after all earlier ones |
| `AnimationManager.AdvanceAliases` | src/main/kotlin/dev/quantam/kanimation/AnimationManager.kt:30-32 | after the pass an engine listed k times has been updated k times with the same dt; an unlisted one is untouched |
| `AnimationManager.UpdateEach` | src/main/kotlin/dev/quantam/kanimation/AnimationManager.kt:30-32 | the for-loop updates every entry once, in list order (not observable across engines; see Left out) |
| `AnimationManager.RemoveStopped` | src/main/kotlin/dev/quantam/kanimation/AnimationManager.kt:34 | removeIf keeps exactly the running entries, in order |
| `AnimationManager.Update` | src/main/kotlin/dev/quantam/kanimation/AnimationManager.kt:29-35 | every entry is updated in list order (not observable across engines; see Left out) before any removal; an engine listed k times is advanced k times; afterwards the list is the old list filtered to running engines, never longer, every entry running; on an empty manager nothing changes |
| `AnimationManager.NeverStartedIsDropped` | src/main/kotlin/dev/quantam/kanimation/AnimationManager.kt:29-35 | an engine added but never started keeps its state, reports nothing, and is gone from the list after the update |
| `AnimationManager.TwoFinishOneContinues` | src/main/kotlin/dev/quantam/kanimation/AnimationManager.kt:29-35 | of three engines, two overshooting and one not, exactly the one still running remains |

## Left out

- The sine curves `easeInSine`, `easeOutSine` and `easeInOutSine` are left out. They need `Math.sin` and `Math.cos`, and the model has no trigonometry.
- IEEE-754 `Float`/`Double` rounding and the `toDouble`/`toFloat` conversions are left out. `Math.pow`'s floating-point result is replaced by the exact `Pow`. All arithmetic is exact over `real`, so the boundary and range facts are real-number facts.
- Durations of zero or less are left out; `Duration` is a subset type `d > 0`. A duration of 0 makes the code divide by zero and pass NaN or infinity to the easing. A negative duration gives no NaN: the first running update either overshoots, clamps, reports `easing(1)` and stops, or leaves the clock at or below the duration with a finite ratio of at least 1.
- Negative deltas are accepted by `Update`, as in the code. The range, clock and monotonicity lemmas are stated only for deltas >= 0.
- The callback is modelled only as appending to the engine's `log`. A callback that re-enters the manager while it iterates, and so depends on Kotlin list iteration rules, is left out. The `java.util.function` wrapper types are left out too.
- Callbacks of different engines are kept in separate logs. How their calls interleave within one frame is not recorded; the list-order fold `Advance` fixes the order of updates.
- The demo application `demo/AnimationApp.kt` is Swing UI, a timer, FPS counting and `main`. It is not part of this model.
