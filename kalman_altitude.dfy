/**
 * Two-state altitude Kalman filter (state: altitude x1, vertical velocity x2).
 *
 * Four measurement channels are gated by h: channels 1-3 observe altitude
 * (rangefinder, barometer, GPS altitude), channel 4 observes vertical velocity.
 * The gain is the closed form that the filter's authors generated with Maple;
 * it is kept here expression by expression, and its meaning is established by
 * the lemmas further down. Arithmetic is exact (`real`).
 */
module KalmanAltitude {

  /** Everything one filter instance holds: the covariance p1..p4 stored row-major
      (p2 is row 1 column 2, p3 is row 2 column 1), the process noise q1, q2, the
      measurement noise r1..r4 and the state x1 (altitude), x2 (vertical velocity). */
  datatype Filter = Filter(
    p1: real, p2: real, p3: real, p4: real,
    q1: real, q2: real,
    r1: real, r2: real, r3: real, r4: real,
    x1: real, x2: real)

  /** A value per measurement channel: gates h or measurements z. */
  datatype Channels = Channels(c1: real, c2: real, c3: real, c4: real)

  /** The 2x4 gain; k1..k4 is the altitude row, k5..k8 the velocity row. */
  datatype Gain = Gain(k1: real, k2: real, k3: real, k4: real,
                       k5: real, k6: real, k7: real, k8: real)

  /** A 2x2 matrix, row-major. */
  datatype Mat2 = Mat2(a11: real, a12: real, a21: real, a22: real)

  /** A pair of state values. */
  datatype Vec2 = Vec2(v1: real, v2: real)

  const NoChannels := Channels(0.0, 0.0, 0.0, 0.0)

  // ---------------------------------------------------------------------------
  // Plain 2x2 linear algebra, used as the reference the Maple form is checked against.

  function MatMul(a: Mat2, b: Mat2): Mat2 {
    Mat2(a.a11 * b.a11 + a.a12 * b.a21, a.a11 * b.a12 + a.a12 * b.a22,
         a.a21 * b.a11 + a.a22 * b.a21, a.a21 * b.a12 + a.a22 * b.a22)
  }

  function MatAdd(a: Mat2, b: Mat2): Mat2 {
    Mat2(a.a11 + b.a11, a.a12 + b.a12, a.a21 + b.a21, a.a22 + b.a22)
  }

  function MatSub(a: Mat2, b: Mat2): Mat2 {
    Mat2(a.a11 - b.a11, a.a12 - b.a12, a.a21 - b.a21, a.a22 - b.a22)
  }

  function Transpose(a: Mat2): Mat2 {
    Mat2(a.a11, a.a21, a.a12, a.a22)
  }

  function MatVec(a: Mat2, v: Vec2): Vec2 {
    Vec2(a.a11 * v.v1 + a.a12 * v.v2, a.a21 * v.v1 + a.a22 * v.v2)
  }

  const Identity := Mat2(1.0, 0.0, 0.0, 1.0)

  /** The constant-velocity transition matrix over a step of dt. */
  function Transition(dt: real): Mat2 {
    Mat2(1.0, dt, 0.0, 1.0)
  }

  function Covariance(f: Filter): Mat2 {
    Mat2(f.p1, f.p2, f.p3, f.p4)
  }

  function State(f: Filter): Vec2 {
    Vec2(f.x1, f.x2)
  }

  function ProcessNoise(f: Filter): Mat2 {
    Mat2(f.q1, 0.0, 0.0, f.q2)
  }

  /** K * H, where H is the 4x2 observation matrix whose rows 1-3 are [h_i, 0]
      and whose row 4 is [0, h4]. */
  function GainTimesObservation(k: Gain, h: Channels): Mat2 {
    Mat2(k.k1 * h.c1 + k.k2 * h.c2 + k.k3 * h.c3, k.k4 * h.c4,
         k.k5 * h.c1 + k.k6 * h.c2 + k.k7 * h.c3, k.k8 * h.c4)
  }

  /** The innovation z - H x: channels 1-3 compare with the altitude, channel 4
      with the vertical velocity. */
  function Innovation(f: Filter, h: Channels, z: Channels): Channels {
    Channels(z.c1 - h.c1 * f.x1, z.c2 - h.c2 * f.x1, z.c3 - h.c3 * f.x1, z.c4 - h.c4 * f.x2)
  }

  /** K * v for a vector v with one entry per channel. */
  function GainTimes(k: Gain, v: Channels): Vec2 {
    Vec2(k.k1 * v.c1 + k.k2 * v.c2 + k.k3 * v.c3 + k.k4 * v.c4,
         k.k5 * v.c1 + k.k6 * v.c2 + k.k7 * v.c3 + k.k8 * v.c4)
  }

  // ---------------------------------------------------------------------------
  // The Maple-generated measurement update, one temporary at a time. A primed name
  // stands for a later value of the same temporary.

  /** The quantity the gain computation divides by (the temporary t15 before it is
      inverted). The update is defined only when it is non-zero. */
  function Denominator(f: Filter, h: Channels): real {
    var t1 := h.c2 * h.c2;
    var t2 := t1 * f.p1;
    var t3 := h.c3 * h.c3;
    var t4 := t3 * f.r2;
    var t5 := t4 * f.p1;
    var t7 := h.c4 * h.c4;
    var t9 := t7 * f.p4;
    var t10 := h.c1 * h.c1;
    var t11 := f.p1 * t10 + f.r1;
    var t2' := t2 * f.r1 + f.r2 * t11;
    var t5' := t5 * f.r1 + f.r3 * t2';
    var t12 := t10 * f.r2;
    var t1' := t1 * f.r1;
    var t13 := -t1' - t12;
    var t14 := t4 * f.r1;
    f.r4 * t5' + t9 * t5' + t7 * (f.r3 * t13 - t14) * f.p3 * f.p2
  }

  /** The eight gain entries ksim1..ksim8. */
  function Gains(f: Filter, h: Channels): Gain
    requires Denominator(f, h) != 0.0
  {
    var t1 := h.c2 * h.c2;
    var t2 := t1 * f.p1;
    var t3 := h.c3 * h.c3;
    var t4 := t3 * f.r2;
    var t5 := t4 * f.p1;
    var t6 := (f.r2 + t2) * f.r3 + t5;
    var t7 := h.c4 * h.c4;
    var t8 := t1 * f.r3;
    var t9 := t7 * f.p4;
    var t6' := f.r4 * t6 + t9 * t6 - t7 * (t4 + t8) * f.p3 * f.p2;
    var t10 := h.c1 * h.c1;
    var t11 := f.p1 * t10 + f.r1;
    var t2' := t2 * f.r1 + f.r2 * t11;
    var t5' := t5 * f.r1 + f.r3 * t2';
    var t12 := t10 * f.r2;
    var t1' := t1 * f.r1;
    var t13 := -t1' - t12;
    var t14 := t4 * f.r1;
    var t15 := Denominator(f, h);
    var t7' := t7 * f.p2 * f.p3;
    var t16 := (-f.r4 - t9) * f.p1 + t7';
    var t15' := 1.0 / t15;
    var t4' := (t4 + t8) * t16;
    var t8' := t7' * f.r3;
    var t17 := t15' * h.c1;
    var t3' := t3 * f.r1;
    var t11' := t3' * f.p1 + f.r3 * t11;
    var t10' := t10 * f.r3;
    var t11'' := f.r4 * t11' + t9 * t11' - t7' * (t10' + t3');
    var t3'' := (t10' + t3') * t16;
    var t10'' := t15' * h.c2;
    var t2'' := f.r4 * t2' + t7' * t13 + t9 * t2';
    var t13' := (t1' + t12) * t16;
    var t16' := t15' * h.c3;
    var t1'' := (-t1' - t12) * f.r3 - t14;
    var t12' := t9 * f.r2;
    Gain(
      t17 * ((t4' + t6') * f.p1 - t8' * f.r2),
      t10'' * ((t3'' + t11'') * f.p1 - t8' * f.r1),
      t16' * ((t13' + t2'') * f.p1 - t7' * f.r1 * f.r2),
      t15' * f.p2 * h.c4 * (t1'' * f.p1 + t5'),
      t17 * f.p3 * (-t12' * f.r3 + t4' + t6'),
      t10'' * f.p3 * (-t9 * f.r1 * f.r3 + t11'' + t3''),
      t16' * f.p3 * (-t12' * f.r1 + t13' + t2''),
      t15' * h.c4 * (f.p3 * f.p2 * t1'' + f.p4 * t5'))
  }

  // The remaining expressions use the gain only through ksim1..ksim8, so they take
  // it as a parameter; Step below feeds them Gains(f, h).

  /** The measurement-corrected state (xest1, xest2) for gain k. */
  function Estimate(f: Filter, h: Channels, z: Channels, k: Gain): Vec2 {
    Vec2(f.x1 + k.k1 * (-h.c1 * f.x1 + z.c1) + k.k2 * (-h.c2 * f.x1 + z.c2)
              + k.k3 * (-h.c3 * f.x1 + z.c3) + k.k4 * (-h.c4 * f.x2 + z.c4),
         f.x2 + k.k5 * (-h.c1 * f.x1 + z.c1) + k.k6 * (-h.c2 * f.x1 + z.c2)
              + k.k7 * (-h.c3 * f.x1 + z.c3) + k.k8 * (-h.c4 * f.x2 + z.c4))
  }

  /** 1 - h1 k1 - h2 k2 - h3 k3: how much of the altitude variance survives the update. */
  function AltitudeRetention(h: Channels, k: Gain): real {
    -h.c1 * k.k1 - h.c2 * k.k2 - h.c3 * k.k3 + 1.0
  }

  /** h1 k5 + h2 k6 + h3 k7: how much the altitude channels move the velocity row. */
  function VelocityCoupling(h: Channels, k: Gain): real {
    h.c1 * k.k5 + h.c2 * k.k6 + h.c3 * k.k7
  }

  /** 1 - h4 k8: how much of the velocity variance survives the update. */
  function VelocityRetention(h: Channels, k: Gain): real {
    -h.c4 * k.k8 + 1.0
  }

  /** The measurement-corrected covariance (pest1..pest4) for gain k. */
  function EstimatedCovariance(f: Filter, h: Channels, k: Gain): Mat2 {
    Mat2(AltitudeRetention(h, k) * f.p1 - k.k4 * h.c4 * f.p3,
         AltitudeRetention(h, k) * f.p2 - k.k4 * h.c4 * f.p4,
         -VelocityCoupling(h, k) * f.p1 + VelocityRetention(h, k) * f.p3,
         -VelocityCoupling(h, k) * f.p2 + VelocityRetention(h, k) * f.p4)
  }

  /** The predicted state (xpred1, xpred2) as the Maple code writes it. */
  function PredictedState(f: Filter, h: Channels, z: Channels, k: Gain, dt: real): Vec2 {
    var t1 := -h.c1 * f.x1 + z.c1;
    var t2 := -h.c2 * f.x1 + z.c2;
    var t3 := -h.c3 * f.x1 + z.c3;
    var t4 := -h.c4 * f.x2 + z.c4;
    var t5 := k.k5 * t1 + k.k6 * t2 + k.k7 * t3 + k.k8 * t4 + f.x2;
    Vec2(dt * t5 + k.k1 * t1 + k.k2 * t2 + k.k3 * t3 + k.k4 * t4 + f.x1, t5)
  }

  /** The predicted covariance (ppred1..ppred4) as the Maple code writes it. */
  function PredictedCovariance(f: Filter, h: Channels, k: Gain, dt: real): Mat2 {
    var t1 := AltitudeRetention(h, k);
    var t2 := VelocityCoupling(h, k);
    var t3 := VelocityRetention(h, k);
    var t4 := t2 * f.p1;
    var t5 := t3 * f.p3;
    var t2' := t2 * f.p2;
    var t3' := t3 * f.p4;
    var t6 := dt * (t2' - t3');
    var t7 := k.k4 * h.c4;
    var t8 := -f.p2 * t1 + t7 * f.p4 + t6;
    Mat2(-(t4 - t5 + t8) * dt + f.p1 * t1 + f.q1 - t7 * f.p3,
         -t8,
         -t6 - t4 + t5,
         f.q2 - t2' + t3')
  }

  /** What one call returns: the corrected estimate. */
  function Corrected(f: Filter, h: Channels, z: Channels): Vec2
    requires Denominator(f, h) != 0.0
  {
    Estimate(f, h, z, Gains(f, h))
  }

  /** What one call leaves behind: the prediction written back, noise unchanged. */
  function Step(f: Filter, h: Channels, z: Channels, dt: real): Filter
    requires Denominator(f, h) != 0.0
  {
    var k := Gains(f, h);
    var x := PredictedState(f, h, z, k, dt);
    var p := PredictedCovariance(f, h, k, dt);
    f.(x1 := x.v1, x2 := x.v2, p1 := p.a11, p2 := p.a12, p3 := p.a21, p4 := p.a22)
  }

  // ---------------------------------------------------------------------------
  // What the Maple form means.

  /** The returned estimate is x + K (z - H x). */
  lemma EstimateIsCorrection(f: Filter, h: Channels, z: Channels, k: Gain)
    ensures Estimate(f, h, z, k)
         == Vec2(f.x1 + GainTimes(k, Innovation(f, h, z)).v1,
                 f.x2 + GainTimes(k, Innovation(f, h, z)).v2)
  {
  }

  /** The corrected covariance is (I - K H) P. */
  lemma EstimatedCovarianceIsUpdate(f: Filter, h: Channels, k: Gain)
    ensures EstimatedCovariance(f, h, k)
         == MatMul(MatSub(Identity, GainTimesObservation(k, h)), Covariance(f))
  {
  }

  /** With every channel gated off the denominator is r1 r2 r3 r4, no gain is
      applied, and the estimate and its covariance are the stored ones. */
  lemma ZeroGateCoasts(f: Filter, h: Channels, z: Channels)
    requires h == NoChannels
    ensures Denominator(f, h) == f.r1 * f.r2 * f.r3 * f.r4
    ensures Denominator(f, h) != 0.0 ==>
      && Gains(f, h) == Gain(0.0, 0.0, 0.0, 0.0, 0.0, 0.0, 0.0, 0.0)
      && Corrected(f, h, z) == State(f)
      && EstimatedCovariance(f, h, Gains(f, h)) == Covariance(f)
  {
    if Denominator(f, h) != 0.0 {
      var k := Gains(f, h);
      assert k == Gain(0.0, 0.0, 0.0, 0.0, 0.0, 0.0, 0.0, 0.0);
      assert AltitudeRetention(h, k) == 1.0 && VelocityCoupling(h, k) == 0.0 && VelocityRetention(h, k) == 1.0;
    }
  }

  /** The stored next state is F * xest, with F the constant-velocity transition. */
  lemma PredictionIsTransition(f: Filter, h: Channels, z: Channels, k: Gain, dt: real)
    ensures PredictedState(f, h, z, k, dt) == MatVec(Transition(dt), Estimate(f, h, z, k))
    ensures PredictedState(f, h, z, k, dt).v2 == Estimate(f, h, z, k).v2
    ensures PredictedState(f, h, z, k, dt).v1 == Estimate(f, h, z, k).v1 + dt * Estimate(f, h, z, k).v2
  {
  }

  /** The covariance prediction as a polynomial identity in the Maple temporaries. */
  lemma CovariancePredictionAlgebra(pe: Mat2, pp: Mat2, p1: real, p2: real, p3: real, p4: real,
                                    q1: real, q2: real, t1: real, t2: real, t3: real, t7: real, dt: real)
    requires pe == Mat2(t1 * p1 - t7 * p3, t1 * p2 - t7 * p4, -t2 * p1 + t3 * p3, -t2 * p2 + t3 * p4)
    requires var t4 := t2 * p1;
             var t5 := t3 * p3;
             var t2' := t2 * p2;
             var t3' := t3 * p4;
             var t6 := dt * (t2' - t3');
             var t8 := -p2 * t1 + t7 * p4 + t6;
             pp == Mat2(-(t4 - t5 + t8) * dt + p1 * t1 + q1 - t7 * p3, -t8, -t6 - t4 + t5, q2 - t2' + t3')
    ensures pp.a22 == pe.a22 + q2
    ensures pp.a21 == pe.a21 + dt * pe.a22
    ensures pp.a12 == pe.a12 + dt * pe.a22
    ensures pp.a11 == pe.a11 + q1 + dt * (pe.a12 + pe.a21 + dt * pe.a22)
  {
  }

  /** The same, entry by entry. */
  lemma CovariancePredictionEntries(f: Filter, h: Channels, k: Gain, dt: real)
    ensures var pe := EstimatedCovariance(f, h, k);
            var pp := PredictedCovariance(f, h, k, dt);
            && pp.a22 == pe.a22 + f.q2
            && pp.a21 == pe.a21 + dt * pe.a22
            && pp.a12 == pe.a12 + dt * pe.a22
            && pp.a11 == pe.a11 + f.q1 + dt * (pe.a12 + pe.a21 + dt * pe.a22)
  {
    CovariancePredictionAlgebra(EstimatedCovariance(f, h, k), PredictedCovariance(f, h, k, dt),
                                f.p1, f.p2, f.p3, f.p4, f.q1, f.q2, AltitudeRetention(h, k),
                                VelocityCoupling(h, k), VelocityRetention(h, k), k.k4 * h.c4, dt);
  }

  /** F M F^T + diag(q1, q2) for the constant-velocity transition F, written out. */
  lemma TransitionSandwich(m: Mat2, n: Mat2, dt: real, q1: real, q2: real)
    requires n.a11 == m.a11 + q1 + dt * (m.a12 + m.a21 + dt * m.a22)
    requires n.a12 == m.a12 + dt * m.a22 && n.a21 == m.a21 + dt * m.a22 && n.a22 == m.a22 + q2
    ensures n == MatAdd(MatMul(MatMul(Transition(dt), m), Transpose(Transition(dt))), Mat2(q1, 0.0, 0.0, q2))
  {
    var fm := Mat2(m.a11 + dt * m.a21, m.a12 + dt * m.a22, m.a21, m.a22);
    assert MatMul(Transition(dt), m) == fm;
    assert MatMul(fm, Transpose(Transition(dt)))
        == Mat2(fm.a11 + fm.a12 * dt, fm.a12, fm.a21 + fm.a22 * dt, fm.a22);
    assert fm.a11 + fm.a12 * dt == m.a11 + dt * (m.a12 + m.a21 + dt * m.a22);
  }

  /** The stored next covariance is F Pest F^T + diag(q1, q2). */
  lemma CovariancePredictionIsTransition(f: Filter, h: Channels, k: Gain, dt: real)
    ensures PredictedCovariance(f, h, k, dt)
         == MatAdd(MatMul(MatMul(Transition(dt), EstimatedCovariance(f, h, k)), Transpose(Transition(dt))),
                   ProcessNoise(f))
  {
    var pe, pp := EstimatedCovariance(f, h, k), PredictedCovariance(f, h, k, dt);
    assert pp.a11 == pe.a11 + f.q1 + dt * (pe.a12 + pe.a21 + dt * pe.a22)
        && pp.a12 == pe.a12 + dt * pe.a22 && pp.a21 == pe.a21 + dt * pe.a22 && pp.a22 == pe.a22 + f.q2 by {
      CovariancePredictionEntries(f, h, k, dt);
    }
    TransitionSandwich(pe, pp, dt, f.q1, f.q2);
  }

  /** A step of length zero only adds the process noise: the stored state is the
      returned estimate. */
  lemma ZeroStepIsStationary(f: Filter, h: Channels, z: Channels, k: Gain)
    ensures PredictedState(f, h, z, k, 0.0) == Estimate(f, h, z, k)
    ensures PredictedCovariance(f, h, k, 0.0) == MatAdd(EstimatedCovariance(f, h, k), ProcessNoise(f))
  {
  }

  /** With only the first altitude channel active the gain is the scalar Kalman
      gain p1 / (p1 + r1) for altitude and p3 / (p1 + r1) for velocity. */
  lemma SingleAltitudeChannelGain(f: Filter, h: Channels)
    requires h == Channels(1.0, 0.0, 0.0, 0.0) && Denominator(f, h) != 0.0
    ensures f.p1 + f.r1 != 0.0
    ensures Gains(f, h)
         == Gain(f.p1 / (f.p1 + f.r1), 0.0, 0.0, 0.0, f.p3 / (f.p1 + f.r1), 0.0, 0.0, 0.0)
  {
  }

  /** With only the second altitude channel active the gain is p1 / (p1 + r2) for
      altitude and p3 / (p1 + r2) for velocity, on that channel alone. */
  lemma SecondAltitudeChannelGain(f: Filter, h: Channels)
    requires h == Channels(0.0, 1.0, 0.0, 0.0) && Denominator(f, h) != 0.0
    ensures f.p1 + f.r2 != 0.0
    ensures Gains(f, h)
         == Gain(0.0, f.p1 / (f.p1 + f.r2), 0.0, 0.0, 0.0, f.p3 / (f.p1 + f.r2), 0.0, 0.0)
  {
  }

  /** With only the third altitude channel active the gain is p1 / (p1 + r3) for
      altitude and p3 / (p1 + r3) for velocity, on that channel alone. */
  lemma ThirdAltitudeChannelGain(f: Filter, h: Channels)
    requires h == Channels(0.0, 0.0, 1.0, 0.0) && Denominator(f, h) != 0.0
    ensures f.p1 + f.r3 != 0.0
    ensures Gains(f, h)
         == Gain(0.0, 0.0, f.p1 / (f.p1 + f.r3), 0.0, 0.0, 0.0, f.p3 / (f.p1 + f.r3), 0.0)
  {
  }

  /** With only the velocity channel active the gain is p2 / (p4 + r4) for altitude
      and p4 / (p4 + r4) for velocity. */
  lemma SingleVelocityChannelGain(f: Filter, h: Channels)
    requires h == Channels(0.0, 0.0, 0.0, 1.0) && Denominator(f, h) != 0.0
    ensures f.p4 + f.r4 != 0.0
    ensures Gains(f, h)
         == Gain(0.0, 0.0, 0.0, f.p2 / (f.p4 + f.r4), 0.0, 0.0, 0.0, f.p4 / (f.p4 + f.r4))
  {
  }

  /** With only the first altitude channel active the estimate moves the altitude by
      p1 / (p1 + r1) of the innovation, and the velocity by p3 / (p1 + r1) of it. */
  lemma SingleAltitudeChannelEstimate(f: Filter, h: Channels, z: Channels)
    requires h == Channels(1.0, 0.0, 0.0, 0.0) && Denominator(f, h) != 0.0
    ensures f.p1 + f.r1 != 0.0
    ensures Corrected(f, h, z)
         == Vec2(f.x1 + f.p1 / (f.p1 + f.r1) * (z.c1 - f.x1),
                 f.x2 + f.p3 / (f.p1 + f.r1) * (z.c1 - f.x1))
  {
    SingleAltitudeChannelGain(f, h);
    var k := Gains(f, h);
    var v := Innovation(f, h, z);
    assert v.c1 == z.c1 - f.x1 && v.c2 == z.c2 && v.c3 == z.c3 && v.c4 == z.c4;
    EstimateIsCorrection(f, h, z, k);
    assert GainTimes(k, v) == Vec2(k.k1 * v.c1, k.k5 * v.c1);
  }

  /** With only the first altitude channel active the denominator is
      r2 r3 r4 (p1 + r1). */
  lemma SingleAltitudeChannelDenominator(f: Filter, h: Channels)
    requires h == Channels(1.0, 0.0, 0.0, 0.0)
    ensures Denominator(f, h) == f.r2 * f.r3 * f.r4 * (f.p1 + f.r1)
  {
  }

  /** P = I, r = 0.5 on every channel, only channel 1 active: the denominator is
      0.1875 and the gain for channel 1 is 2/3, with no velocity gain. */
  lemma UnitCovarianceGain(f: Filter, h: Channels)
    requires f == Filter(1.0, 0.0, 0.0, 1.0, 0.01, 0.01, 0.5, 0.5, 0.5, 0.5, 0.0, 0.0)
    requires h == Channels(1.0, 0.0, 0.0, 0.0)
    ensures Denominator(f, h) == 0.1875
    ensures Gains(f, h).k1 == 2.0 / 3.0 && Gains(f, h).k5 == 0.0
  {
    SingleAltitudeChannelDenominator(f, h);
    assert f.r2 * f.r3 * f.r4 * (f.p1 + f.r1) == 0.1875;
    assert f.p1 / (f.p1 + f.r1) == 2.0 / 3.0 && f.p3 / (f.p1 + f.r1) == 0.0;
    SingleAltitudeChannelGain(f, h);
  }

  /** The same setting with x = 0 and z1 = 10: the estimate is (20/3, 0). */
  lemma UnitCovarianceEstimate(f: Filter, h: Channels, z: Channels)
    requires f == Filter(1.0, 0.0, 0.0, 1.0, 0.01, 0.01, 0.5, 0.5, 0.5, 0.5, 0.0, 0.0)
    requires h == Channels(1.0, 0.0, 0.0, 0.0) && z == Channels(10.0, 0.0, 0.0, 0.0)
    ensures Denominator(f, h) != 0.0
    ensures Corrected(f, h, z) == Vec2(20.0 / 3.0, 0.0)
  {
    var g1, g5 := f.p1 / (f.p1 + f.r1), f.p3 / (f.p1 + f.r1);
    assert Vec2(f.x1 + g1 * (z.c1 - f.x1), f.x2 + g5 * (z.c1 - f.x1)) == Vec2(20.0 / 3.0, 0.0);
    assert Denominator(f, h) != 0.0 by {
      SingleAltitudeChannelDenominator(f, h);
      assert f.r2 * f.r3 * f.r4 * (f.p1 + f.r1) == 0.1875;
    }
    SingleAltitudeChannelEstimate(f, h, z);
  }

  // ---------------------------------------------------------------------------
  // The filter object.

  class AltKalman {
    var p1: real
    var p2: real
    var p3: real
    var p4: real
    var q1: real
    var q2: real
    var r1: real
    var r2: real
    var r3: real
    var r4: real
    var x1: real
    var x2: real

    function Snapshot(): Filter
      reads this
    {
      Filter(p1, p2, p3, p4, q1, q2, r1, r2, r3, r4, x1, x2)
    }

    /** Stores p (row-major), q, r and x unchanged. */
    constructor (p: seq<real>, q: seq<real>, r: seq<real>, x: seq<real>)
      requires |p| >= 4 && |q| >= 2 && |r| >= 4 && |x| >= 2
      ensures Snapshot() == Filter(p[0], p[1], p[2], p[3], q[0], q[1],
                                   r[0], r[1], r[2], r[3], x[0], x[1])
    {
      p1, p2, p3, p4 := p[0], p[1], p[2], p[3];
      q1, q2 := q[0], q[1];
      r1, r2, r3, r4 := r[0], r[1], r[2], r[3];
      x1, x2 := x[0], x[1];
    }

    /** One filter cycle: returns the corrected estimate and keeps the prediction. */
    method AltKf(h: Channels, z: Channels, dt: real) returns (xest1: real, xest2: real)
      requires Denominator(Snapshot(), h) != 0.0
      modifies this
      ensures Vec2(xest1, xest2) == Corrected(old(Snapshot()), h, z)
      ensures Snapshot() == Step(old(Snapshot()), h, z, dt)
      ensures x1 == xest1 + dt * xest2 && x2 == xest2
      ensures q1 == old(q1) && q2 == old(q2)
      ensures r1 == old(r1) && r2 == old(r2) && r3 == old(r3) && r4 == old(r4)
    {
      var f := Snapshot();
      var est := Corrected(f, h, z);
      var next := Step(f, h, z, dt);
      assert next.x1 == est.v1 + dt * est.v2 && next.x2 == est.v2 by {
        PredictionIsTransition(f, h, z, Gains(f, h), dt);
      }
      assert next.q1 == f.q1 && next.q2 == f.q2;
      assert next.r1 == f.r1 && next.r2 == f.r2 && next.r3 == f.r3 && next.r4 == f.r4;
      x1, x2 := next.x1, next.x2;
      p1, p2, p3, p4 := next.p1, next.p2, next.p3, next.p4;
      xest1, xest2 := est.v1, est.v2;
    }
  }
}
