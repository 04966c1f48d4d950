/**
 * The timing state machine of a single animation. Duration and easing are
 * fixed when the engine is made; elapsed time and the running flag are the
 * only state that changes. The progress callback is modelled by `log`: the
 * sequence of values the callback has received so far, in order.
 */
module AnimationEngine {
  import Easing

  /** A duration in seconds. Non-positive durations are outside the model. */
  type Duration = d: real | d > 0.0 witness 1.0

  datatype Engine = Engine(
    duration: Duration,
    easing: real -> real,
    elapsed: real,
    running: bool,
    log: seq<real>)

  function Min(a: real, b: real): real
  {
    if a <= b then a else b
  }

  /** Elapsed time lies between zero and the duration. */
  predicate TimeInRange(e: Engine)
  {
    0.0 <= e.elapsed <= e.duration
  }

  /** The configuration fixed at construction is the same in both engines. */
  ghost predicate SameConfig(e: Engine, f: Engine)
  {
    e.duration == f.duration && e.easing == f.easing
  }

  /** A freshly constructed engine: no time elapsed, not running, nothing reported. */
  function New(duration: Duration, easing: real -> real): (e: Engine)
    ensures e.duration == duration && e.easing == easing
    ensures e.elapsed == 0.0 && !e.running && e.log == []
    ensures TimeInRange(e)
  {
    Engine(duration, easing, 0.0, false, [])
  }

  /** start(): sets the running flag; elapsed time is not rewound. */
  function Start(e: Engine): (r: Engine)
    ensures r.running
    ensures SameConfig(r, e) && r.elapsed == e.elapsed && r.log == e.log
  {
    e.(running := true)
  }

  /** stop(): clears the running flag and touches nothing else. */
  function Stop(e: Engine): (r: Engine)
    ensures !r.running
    ensures SameConfig(r, e) && r.elapsed == e.elapsed && r.log == e.log
  {
    e.(running := false)
  }

  /** isRunning: the current running flag. */
  function IsRunning(e: Engine): (b: bool)
    ensures b <==> e.running
  {
    e.running
  }

  /**
   * update(deltaTime): when running, advance the clock, clamp it to the
   * duration and stop once it overshoots (strictly), then report the eased
   * ratio of the clamped time exactly once.
   */
  function Update(e: Engine, dt: real): (r: Engine)
    ensures SameConfig(r, e)
    ensures !e.running ==> r == e
    ensures e.running ==> r.elapsed == Min(e.elapsed + dt, e.duration)
    ensures e.running ==> (r.running <==> e.elapsed + dt <= e.duration)
    ensures e.running ==> r.log == e.log + [e.easing(r.elapsed / e.duration)]
    ensures e.running && !r.running ==> r.elapsed == e.duration
    ensures e.running && r.elapsed == e.duration ==> r.log == e.log + [e.easing(1.0)]
    ensures TimeInRange(e) && dt >= 0.0 ==> TimeInRange(r)
  {
    if !e.running then e
    else
      SelfRatio(e.duration);
      var t := e.elapsed + dt;
      var overshoot := t > e.duration;
      var clamped := if overshoot then e.duration else t;
      e.(elapsed := clamped, running := !overshoot, log := e.log + [e.easing(clamped / e.duration)])
  }

  lemma SelfRatio(d: real)
    requires d > 0.0
    ensures d / d == 1.0
  {
  }

  lemma StopIsIdempotent(e: Engine)
    ensures Stop(Stop(e)) == Stop(e)
  {
  }

  // ---------------------------------------------------------------------
  // Several frames in a row
  // ---------------------------------------------------------------------

  /** The engine after one update per entry of dts, in order. */
  function Run(e: Engine, dts: seq<real>): (r: Engine)
    ensures SameConfig(r, e)
    decreases |dts|
  {
    if |dts| == 0 then e else Run(Update(e, dts[0]), dts[1..])
  }

  function Sum(dts: seq<real>): real
    decreases |dts|
  {
    if |dts| == 0 then 0.0 else dts[0] + Sum(dts[1..])
  }

  /** k copies of dt: the deltas an engine listed k times in a manager receives in one frame. */
  function Repeat(dt: real, k: nat): (s: seq<real>)
    ensures |s| == k
    ensures forall i :: 0 <= i < k ==> s[i] == dt
  {
    if k == 0 then [] else [dt] + Repeat(dt, k - 1)
  }

  ghost predicate NonNegative(dts: seq<real>)
  {
    forall i :: 0 <= i < |dts| ==> dts[i] >= 0.0
  }

  lemma {:induction false} SumNonNegative(dts: seq<real>)
    requires NonNegative(dts)
    ensures Sum(dts) >= 0.0
    decreases |dts|
  {
    if |dts| > 0 {
      SumNonNegative(dts[1..]);
    }
  }

  /** Updates of an engine that is not running change nothing and report nothing. */
  lemma {:induction false} RunWhileStopped(e: Engine, dts: seq<real>)
    requires !e.running
    ensures Run(e, dts) == e
    decreases |dts|
  {
    if |dts| > 0 {
      RunWhileStopped(Update(e, dts[0]), dts[1..]);
    }
  }

  /**
   * With non-negative deltas the clock of a running engine reads the total
   * time fed to it, clamped to the duration, and the engine is still running
   * exactly when that total has not passed the duration.
   */
  lemma {:induction false} RunClock(e: Engine, dts: seq<real>)
    requires TimeInRange(e) && NonNegative(dts)
    ensures TimeInRange(Run(e, dts))
    ensures e.running ==> Run(e, dts).elapsed == Min(e.elapsed + Sum(dts), e.duration)
    ensures !e.running ==> Run(e, dts).elapsed == e.elapsed
    ensures Run(e, dts).running <==> e.running && e.elapsed + Sum(dts) <= e.duration
    decreases |dts|
  {
    if |dts| == 0 {
    } else if !e.running {
      RunWhileStopped(e, dts);
    } else {
      var u := Update(e, dts[0]);
      SumNonNegative(dts[1..]);
      if !u.running {
        RunWhileStopped(u, dts[1..]);
      } else {
        RunClock(u, dts[1..]);
      }
    }
  }

  /**
   * The callback log is only ever appended to; a running engine reports once
   * per update for as long as it keeps running; and the last report of an
   * engine that stops during the frames is the easing of exactly 1.
   */
  lemma {:induction false} RunReports(e: Engine, dts: seq<real>)
    ensures |Run(e, dts).log| >= |e.log| && Run(e, dts).log[..|e.log|] == e.log
    ensures e.running && Run(e, dts).running ==> |Run(e, dts).log| == |e.log| + |dts|
    ensures e.running && !Run(e, dts).running ==>
      |Run(e, dts).log| > |e.log| && Run(e, dts).log[|Run(e, dts).log| - 1] == e.easing(1.0)
    decreases |dts|
  {
    if |dts| > 0 {
      var u := Update(e, dts[0]);
      if !u.running {
        RunWhileStopped(u, dts[1..]);
      } else {
        RunReports(u, dts[1..]);
      }
      var r := Run(u, dts[1..]);
      assert r.log[..|u.log|] == u.log;
      assert u.log[..|e.log|] == e.log;
      assert r.log[..|e.log|] == r.log[..|u.log|][..|e.log|];
    }
  }

  // ---------------------------------------------------------------------
  // The values reported to the callback
  // ---------------------------------------------------------------------

  lemma RatioInUnit(a: real, d: real)
    requires 0.0 <= a <= d && d > 0.0
    ensures 0.0 <= a / d <= 1.0
  {
  }

  lemma RatioMonotone(a: real, b: real, d: real)
    requires a <= b && d > 0.0
    ensures a / d <= b / d
  {
  }

  ghost predicate LogInUnit(log: seq<real>)
  {
    forall i :: 0 <= i < |log| ==> 0.0 <= log[i] <= 1.0
  }

  /**
   * With an easing curve that keeps [0, 1] in [0, 1], every value ever
   * reported lies in [0, 1], the range the callback is documented to receive.
   */
  lemma {:induction false} ReportsInUnit(e: Engine, dts: seq<real>)
    requires Easing.KeepsUnitInterval(e.easing)
    requires TimeInRange(e) && NonNegative(dts) && LogInUnit(e.log)
    ensures LogInUnit(Run(e, dts).log)
    decreases |dts|
  {
    if |dts| > 0 {
      var u := Update(e, dts[0]);
      if e.running {
        RatioInUnit(u.elapsed, e.duration);
      }
      ReportsInUnit(u, dts[1..]);
    }
  }

  ghost predicate Sorted(log: seq<real>)
  {
    forall i, j :: 0 <= i < j < |log| ==> log[i] <= log[j]
  }

  /** Every value reported so far is at most the eased ratio of the current clock. */
  ghost predicate ReportsTrail(e: Engine)
  {
    forall i :: 0 <= i < |e.log| ==> e.log[i] <= e.easing(e.elapsed / e.duration)
  }

  /**
   * With a non-decreasing easing curve and non-negative deltas, the values
   * reported to the callback never decrease.
   */
  lemma {:induction false} ReportsNonDecreasing(e: Engine, dts: seq<real>)
    requires Easing.MonotoneOnUnit(e.easing)
    requires TimeInRange(e) && NonNegative(dts)
    requires Sorted(e.log) && ReportsTrail(e)
    ensures Sorted(Run(e, dts).log)
    decreases |dts|
  {
    if |dts| > 0 {
      var u := Update(e, dts[0]);
      if e.running {
        RatioInUnit(e.elapsed, e.duration);
        RatioInUnit(u.elapsed, e.duration);
        RatioMonotone(e.elapsed, u.elapsed, e.duration);
        var v := e.easing(u.elapsed / e.duration);
        assert e.easing(e.elapsed / e.duration) <= v;
        assert u.log == e.log + [v];
        assert forall i :: 0 <= i < |u.log| ==> u.log[i] <= v;
      }
      ReportsNonDecreasing(u, dts[1..]);
    }
  }

  /**
   * An engine driven by one of the polynomial curves, started fresh and fed
   * non-negative deltas, reports only values in [0, 1], never decreasing, and
   * if it has stopped its last report is exactly 1.
   */
  lemma CurveReports(c: Easing.Curve, duration: Duration, dts: seq<real>)
    requires NonNegative(dts)
    ensures LogInUnit(Run(Start(New(duration, Easing.AsFunction(c))), dts).log)
    ensures Sorted(Run(Start(New(duration, Easing.AsFunction(c))), dts).log)
    ensures var r := Run(Start(New(duration, Easing.AsFunction(c))), dts);
      !r.running ==> |r.log| > 0 && r.log[|r.log| - 1] == 1.0
  {
    var e := Start(New(duration, Easing.AsFunction(c)));
    Easing.CurveIsWellBehaved(c);
    Easing.Endpoints(c);
    ReportsInUnit(e, dts);
    ReportsNonDecreasing(e, dts);
    RunReports(e, dts);
  }

  // ---------------------------------------------------------------------
  // Particular behaviours
  // ---------------------------------------------------------------------

  /**
   * Restarting a finished engine does not rewind it: the next update reports
   * the easing of 1 again, and stops it again unless the delta is zero.
   */
  lemma RestartAfterFinish(e: Engine, dt: real)
    requires !e.running && e.elapsed == e.duration && dt >= 0.0
    ensures Update(Start(e), dt).log == e.log + [e.easing(1.0)]
    ensures Update(Start(e), dt).elapsed == e.duration
    ensures Update(Start(e), dt).running <==> dt == 0.0
  {
  }

  /**
   * The stop test is strict: an update that lands exactly on the duration
   * reports the easing of 1 and leaves the engine running; the next update
   * with a positive delta reports the easing of 1 a second time and stops it.
   */
  lemma ExactLandingKeepsRunning(e: Engine, dt: real, next: real)
    requires e.running && e.elapsed + dt == e.duration && next > 0.0
    ensures Update(e, dt).running
    ensures Update(e, dt).log == e.log + [e.easing(1.0)]
    ensures !Update(Update(e, dt), next).running
    ensures Update(Update(e, dt), next).log == e.log + [e.easing(1.0), e.easing(1.0)]
  {
  }

  /**
   * A two-second animation updated by one second twice reports the easing of
   * 0.5 and then of 1, and is still running afterwards: the clock sits exactly
   * on the duration, which the strict test does not treat as finished.
   */
  lemma TwoSecondsInTwoSteps(easing: real -> real)
    ensures Run(Start(New(2.0, easing)), [1.0, 1.0]).elapsed == 2.0
    ensures Run(Start(New(2.0, easing)), [1.0, 1.0]).log == [easing(0.5), easing(1.0)]
    ensures Run(Start(New(2.0, easing)), [1.0, 1.0]).running
    ensures !Run(Start(New(2.0, easing)), [1.0, 1.0, 1.0]).running
  {
  }

  /** One overshooting update clamps the clock to the duration and stops. */
  lemma OvershootClamps(easing: real -> real)
    ensures Update(Start(New(1.0, easing)), 5.0).elapsed == 1.0
    ensures !Update(Start(New(1.0, easing)), 5.0).running
    ensures Update(Start(New(1.0, easing)), 5.0).log == [easing(1.0)]
  {
  }
}
