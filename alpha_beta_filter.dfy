/**
 * Alpha-beta tracker: after a reset it averages the first five measurements into
 * the position, then runs a fixed-gain predict/correct step on position and
 * velocity.
 */
module AlphaBetaFilter {
  import opened Common

  /** Number of samples averaged after a reset before tracking starts. */
  const NAvg := 5

  /** Everything one tracker holds: the gains, the warm-up flag and counter, and the
      previous position and velocity. */
  datatype Tracker = Tracker(alpha: real, beta: real, firstTime: int, avgCount: int, xk1: real, vk1: real)

  /** What one call returns. */
  datatype Estimate = Estimate(position: real, velocity: real)

  datatype Tracked = Tracked(estimate: Estimate, next: Tracker)

  /** A measurement and the time since the previous one. */
  datatype Sample = Sample(xm: real, dt: real)

  /** A correction step with dt = 0 divides by zero. */
  datatype TrackError = ZeroTimeStep

  function Reset(t: Tracker): Tracker {
    t.(firstTime := 1, avgCount := 1, xk1 := 0.0, vk1 := 0.0)
  }

  function Init(alpha: real, beta: real): Tracker {
    Reset(Tracker(alpha, beta, 0, 0, 0.0, 0.0))
  }

  /** One call of `track`. */
  function Track(t: Tracker, xm: real, dt: real): Result<Tracked, TrackError> {
    if t.firstTime == 1 then
      var x := t.xk1 + xm / NAvg as real;
      var next := if t.avgCount == NAvg then t.(xk1 := x, firstTime := 0)
                  else t.(xk1 := x, avgCount := t.avgCount + 1);
      Ok(Tracked(Estimate(x, t.vk1), next))
    else if dt == 0.0 then
      Err(ZeroTimeStep)
    else
      var predicted := t.xk1 + t.vk1 * dt;
      var residual := xm - predicted;
      var x := predicted + t.alpha * residual;
      var v := t.vk1 + (t.beta * residual) / dt;
      Ok(Tracked(Estimate(x, v), t.(xk1 := x, vk1 := v)))
  }

  /** Successive calls of `track`, stopping at the first error. */
  function Feed(t: Tracker, samples: seq<Sample>): Result<Tracker, TrackError>
    decreases |samples|
  {
    if |samples| == 0 then Ok(t)
    else match Track(t, samples[0].xm, samples[0].dt)
      case Err(e) => Err(e)
      case Ok(step) => Feed(step.next, samples[1..])
  }

  function Sum(samples: seq<Sample>): real
    decreases |samples|
  {
    if |samples| == 0 then 0.0 else samples[0].xm + Sum(samples[1..])
  }

  /** What every tracker reachable from the constructor satisfies: the counter stays
      in 1..NAvg, and once warm-up is over it sits at NAvg. */
  predicate Valid(t: Tracker) {
    && 1 <= t.avgCount <= NAvg
    && (t.firstTime == 0 || t.firstTime == 1)
    && (t.firstTime == 0 ==> t.avgCount == NAvg)
  }

  // ---------------------------------------------------------------------------

  lemma InitValid(alpha: real, beta: real)
    ensures Valid(Init(alpha, beta))
    ensures Init(alpha, beta).alpha == alpha && Init(alpha, beta).beta == beta
  {
  }

  /** `reset` re-arms the warm-up and keeps the gains. */
  lemma ResetValid(t: Tracker)
    ensures Valid(Reset(t))
    ensures Reset(t).alpha == t.alpha && Reset(t).beta == t.beta
    ensures Reset(t).firstTime == 1 && Reset(t).avgCount == 1 && Reset(t).xk1 == 0.0 && Reset(t).vk1 == 0.0
  {
  }

  /** Every call keeps the tracker valid and its gains unchanged. */
  lemma TrackPreservesValid(t: Tracker, xm: real, dt: real)
    requires Valid(t)
    ensures Track(t, xm, dt).Ok? ==> Valid(Track(t, xm, dt).value.next)
    ensures Track(t, xm, dt).Ok? ==>
              Track(t, xm, dt).value.next.alpha == t.alpha && Track(t, xm, dt).value.next.beta == t.beta
  {
  }

  /** A call fails exactly when tracking has started and dt is zero. */
  lemma TrackFails(t: Tracker, xm: real, dt: real)
    ensures Track(t, xm, dt).Err? <==> t.firstTime != 1 && dt == 0.0
  {
  }

  /** During warm-up a call adds xm / NAvg to the position, returns the velocity
      unchanged, and ignores dt. */
  lemma WarmUpStep(t: Tracker, xm: real, dt: real, dt': real)
    requires t.firstTime == 1
    ensures Track(t, xm, dt).Ok?
    ensures Track(t, xm, dt).value.estimate == Estimate(t.xk1 + xm / 5.0, t.vk1)
    ensures Track(t, xm, dt) == Track(t, xm, dt')
  {
  }

  /** From a warm-up state with c - 1 samples averaged, m more samples (with
      c - 1 + m <= NAvg) add their sum / NAvg to the position; the warm-up ends
      exactly when NAvg samples have been taken. */
  lemma {:induction false} WarmUpAccumulates(t: Tracker, samples: seq<Sample>)
    requires t.firstTime == 1 && 1 <= t.avgCount <= NAvg && t.avgCount - 1 + |samples| <= NAvg
    ensures Feed(t, samples).Ok?
    ensures var u := Feed(t, samples).value;
            && u.xk1 == t.xk1 + Sum(samples) / 5.0
            && u.vk1 == t.vk1 && u.alpha == t.alpha && u.beta == t.beta
            && (if t.avgCount - 1 + |samples| == NAvg then u.firstTime == 0 && u.avgCount == NAvg
                else u.firstTime == 1 && u.avgCount == t.avgCount + |samples|)
    decreases |samples|
  {
    if |samples| > 0 {
      var s := samples[0];
      var next := Track(t, s.xm, s.dt).value.next;
      assert next.xk1 == t.xk1 + s.xm / 5.0;
      if t.avgCount == NAvg {
        assert samples[1..] == [];
        assert Feed(t, samples) == Ok(next);
        assert Sum(samples) == s.xm + Sum(samples[1..]);
      } else {
        WarmUpAccumulates(next, samples[1..]);
        assert Sum(samples) == s.xm + Sum(samples[1..]);
      }
    }
  }

  /** Five calls after a reset end the warm-up with the mean of the five
      measurements as the position and zero velocity. */
  lemma WarmUpAverages(t: Tracker, samples: seq<Sample>)
    requires |samples| == NAvg
    ensures Feed(Reset(t), samples).Ok?
    ensures Feed(Reset(t), samples).value.firstTime == 0
    ensures Feed(Reset(t), samples).value.xk1 == Sum(samples) / 5.0
    ensures Feed(Reset(t), samples).value.vk1 == 0.0
  {
    WarmUpAccumulates(Reset(t), samples);
  }

  /** After warm-up the call is the alpha-beta correction of the constant-velocity
      prediction p = xk_1 + vk_1 dt, and its result is stored. */
  lemma TrackingStep(t: Tracker, xm: real, dt: real)
    requires t.firstTime != 1 && dt != 0.0
    ensures Track(t, xm, dt).Ok?
    ensures var p := t.xk1 + t.vk1 * dt;
            var e := Track(t, xm, dt).value.estimate;
            && e.position - p == t.alpha * (xm - p)
            && (e.velocity - t.vk1) * dt == t.beta * (xm - p)
            && Track(t, xm, dt).value.next == t.(xk1 := e.position, vk1 := e.velocity)
  {
    var p := t.xk1 + t.vk1 * dt;
    var r := xm - p;
    assert (t.vk1 + (t.beta * r) / dt - t.vk1) * dt == t.beta * r;
  }

  /** With alpha = 1 the position follows the measurement exactly. */
  lemma UnitAlphaFollowsMeasurement(t: Tracker, xm: real, dt: real)
    requires t.firstTime != 1 && dt != 0.0 && t.alpha == 1.0
    ensures Track(t, xm, dt).Ok? && Track(t, xm, dt).value.estimate.position == xm
  {
  }

  /** With both gains zero the tracker coasts at constant velocity and ignores xm. */
  lemma ZeroGainsCoast(t: Tracker, xm: real, dt: real)
    requires t.firstTime != 1 && dt != 0.0 && t.alpha == 0.0 && t.beta == 0.0
    ensures Track(t, xm, dt) == Ok(Tracked(Estimate(t.xk1 + t.vk1 * dt, t.vk1),
                                           t.(xk1 := t.xk1 + t.vk1 * dt)))
  {
    var predicted := t.xk1 + t.vk1 * dt;
    var residual := xm - predicted;
    assert t.alpha * residual == 0.0 && (t.beta * residual) / dt == 0.0;
    assert Track(t, xm, dt).value.estimate == Estimate(predicted, t.vk1);
  }

  // ---------------------------------------------------------------------------

  class Trackfilt {
    var alpha: real
    var beta: real
    const nAvg: int
    var firstTime: int
    var avgCount: int
    var xk1: real
    var vk1: real

    function Snapshot(): Tracker
      reads this
    {
      Tracker(alpha, beta, firstTime, avgCount, xk1, vk1)
    }

    constructor (alpha: real, beta: real)
      ensures Snapshot() == Init(alpha, beta) && nAvg == NAvg
    {
      this.alpha, this.beta := alpha, beta;
      nAvg := 5;
      firstTime, avgCount, xk1, vk1 := 1, 1, 0.0, 0.0;
    }

    method SetAlpha(newAlpha: real)
      modifies this
      ensures Snapshot() == old(Snapshot()).(alpha := newAlpha)
    {
      alpha := newAlpha;
    }

    method SetBeta(newBeta: real)
      modifies this
      ensures Snapshot() == old(Snapshot()).(beta := newBeta)
    {
      beta := newBeta;
    }

    method ResetFilter()
      modifies this
      ensures Snapshot() == Reset(old(Snapshot()))
    {
      firstTime := 1;
      avgCount := 1;
      xk1 := 0.0;
      vk1 := 0.0;
    }

    /** One call of `track`; on an error nothing is stored. */
    method TrackMeasurement(xm: real, dt: real) returns (r: Result<Estimate, TrackError>)
      requires nAvg == NAvg
      modifies this
      ensures Track(old(Snapshot()), xm, dt).Ok? ==>
                r == Ok(Track(old(Snapshot()), xm, dt).value.estimate)
                && Snapshot() == Track(old(Snapshot()), xm, dt).value.next
      ensures Track(old(Snapshot()), xm, dt).Err? ==>
                r == Err(Track(old(Snapshot()), xm, dt).error) && Snapshot() == old(Snapshot())
    {
      ghost var t := Snapshot();
      var xk, vk;
      if firstTime == 1 {
        xk1 := xk1 + xm / nAvg as real;
        assert xk1 == t.xk1 + xm / 5.0;
        if avgCount == nAvg {
          firstTime := 0;
        } else {
          avgCount := avgCount + 1;
        }
        xk, vk := xk1, vk1;
        assert Track(t, xm, dt).value.estimate == Estimate(xk, vk);
        assert Track(t, xm, dt).value.next == Snapshot();
      } else {
        if dt == 0.0 {
          return Err(ZeroTimeStep);
        }
        xk := xk1 + vk1 * dt;
        vk := vk1;
        var rk := xm - xk;
        assert xk == t.xk1 + t.vk1 * dt && rk == xm - (t.xk1 + t.vk1 * dt);
        xk := xk + alpha * rk;
        vk := vk + (beta * rk) / dt;
        assert xk == (t.xk1 + t.vk1 * dt) + t.alpha * rk && vk == t.vk1 + (t.beta * rk) / dt;
        xk1 := xk;
        vk1 := vk;
        assert Track(t, xm, dt).value.estimate.position == xk;
        assert Track(t, xm, dt).value.estimate.velocity == vk;
        assert Track(t, xm, dt).value.next == Snapshot();
      }
      r := Ok(Estimate(xk, vk));
    }
  }
}
