/** Whole-run results about the clock filter: exact tracking, and conversions that undo each other and keep order. */
module FilterRuns {
  import opened Numbers
  import opened Kalman
  import opened TimeFilters
  import opened LeastSquares

  // ---------------------------------------------------------------- exact tracking of a linear clock

  ghost predicate OnLine(s: Sample, A: real, B: real) { s.measurement as real == Line(A, B, s.time as real) }

  ghost predicate Fits(st: State, A: real, B: real) {
    && (st.count >= 1 ==> st.offset == Line(A, B, st.lastUpdate as real))
    && (st.count >= 2 ==> st.drift == B)
  }

  lemma StepFits(p: Params, st: State, s: Sample, A: real, B: real)
    requires Defined(p, st, s) && OnLine(s, A, B) && Fits(st, A, B)
    ensures Fits(Step(p, st, s), A, B)
  {
    if !Stale(st, s) && st.count >= 1 {
      var dt := Dt(st, s);
      LineStep(A, B, st.lastUpdate as real, s.time as real, dt);
      if st.count == 1 {
        Slope(s.measurement as real - st.offset, B, dt);
      } else {
        assert Residual(st, s) == 0.0;
        hide PredictedCov, Correct;
        var c := PredictedCov(p, st, s);
        var i := 1.0 / (c.oo + MeasVar(p, s));
        assert c.oo * i * Residual(st, s) == 0.0 && c.od * i * Residual(st, s) == 0.0;
      }
    }
  }

  lemma LineExtends(A: real, B: real, l: real, t: real, dt: real)
    requires dt == t - l
    ensures Extrapolate(Line(A, B, l), B, dt) == Line(A, B, t)
    ensures Extrapolate(Line(A, B, l), 0.0, dt) == Line(A, B, l)
  {
    LineStep(A, B, l, t, dt);
  }

  /**
   Measurements on one line A + B*t, stale ones interleaved anywhere: from the second accepted sample on
   the filter holds exactly that line, whatever the noise settings and however often it forgets.
   */
  lemma {:induction false} TracksLine(p: Params, st: State, ss: seq<Sample>, A: real, B: real)
    requires RunDefined(p, st, ss) && Fits(st, A, B)
    requires forall i :: 0 <= i < |ss| ==> OnLine(ss[i], A, B)
    ensures Fits(Run(p, st, ss), A, B)
    ensures st.count as int + |Accepted(st.lastUpdate, ss)| >= 2 ==> Run(p, st, ss).count >= 2
    decreases |ss|
  {
    if ss == [] {
    } else {
      StepFits(p, st, ss[0], A, B);
      TracksLine(p, Step(p, st, ss[0]), ss[1..], A, B);
    }
  }

  /** Hence conversions are exact up to one rounding, at every client time, once drift is in use. */
  lemma ExactConversion(p: Params, ss: seq<Sample>, A: real, B: real, c: int)
    requires RunDefined(p, FRESH, ss) && |Accepted(0, ss)| >= 2
    requires forall i :: 0 <= i < |ss| ==> OnLine(ss[i], A, B)
    ensures var st := Run(p, FRESH, ss);
      ServerTime(st, c) == c + Round(Line(A, B, if st.useDrift then c as real else st.lastUpdate as real))
  {
    TracksLine(p, FRESH, ss, A, B);
    var st := Run(p, FRESH, ss);
    hide Run, RunDefined, Round;
    LineExtends(A, B, st.lastUpdate as real, c as real, (c - st.lastUpdate) as real);
  }

  // ---------------------------------------------------------------- when drift is in use

  lemma AbsAbove(x: real, y: real)
    requires y >= 0.0
    ensures x * x > y * y <==> x > y || x < -y
  {
    var a, b := x - y, x + y;
    assert x * x - y * y == a * b;
    if x > y {
      ProductPositive(a, b);
    } else if x < -y {
      ProductPositive(-a, -b);
      assert (-a) * (-b) == a * b;
    } else {
      ProductNonnegative(-a, b);
      assert (-a) * b == -(a * b);
    }
  }

  /** The drift is used if and only if its square is more than k squared times its variance. */
  ghost predicate UseRule(n: State, k: real) { n.useDrift <==> n.drift * n.drift > k * k * n.cov.dd }

  /** sigma is the standard deviation of the drift, and the drift is used if it is more than k of them from zero. */
  ghost predicate DeviationRule(n: State, k: real, sigma: real) {
    k >= 0.0 && sigma >= 0.0 && sigma * sigma == n.cov.dd ==>
      (n.useDrift <==> n.drift > k * sigma || n.drift < -(k * sigma))
  }

  /**
   From the third sample on the drift is used exactly when it is further from zero than the configured number of its own
   standard deviations.
   */
  lemma DriftUsedIff(cfg: Config, st: State, s: Sample, sigma: real)
    requires Defined(FromConfig(cfg), st, s) && !Stale(st, s) && st.count >= 2
    ensures UseRule(Step(FromConfig(cfg), st, s), cfg.driftSignificanceThreshold)
    ensures DeviationRule(Step(FromConfig(cfg), st, s), cfg.driftSignificanceThreshold, sigma)
  {
    StepUse(cfg, st, s);
    hide *;
    DeviationsAway(Step(FromConfig(cfg), st, s), cfg.driftSignificanceThreshold, sigma);
  }

  lemma DeviationsAway(n: State, k: real, sigma: real)
    requires UseRule(n, k)
    ensures DeviationRule(n, k, sigma)
  {
    if k >= 0.0 && sigma >= 0.0 && sigma * sigma == n.cov.dd {
      var y := k * sigma;
      ProductNonnegative(k, sigma);
      assert y * y == k * k * (sigma * sigma);
      AbsAbove(n.drift, y);
    }
  }

  lemma StepUse(cfg: Config, st: State, s: Sample)
    requires Defined(FromConfig(cfg), st, s) && !Stale(st, s) && st.count >= 2
    ensures UseRule(Step(FromConfig(cfg), st, s), cfg.driftSignificanceThreshold)
  {
    hide PredictedCov, MeasVar, Residual, PredictedOffset, Gain, WithGains;
  }

  /** Until the third accepted sample drift is never used, and then the last one decides. */
  lemma {:induction false} DriftUsedAfter(cfg: Config, st: State, ss: seq<Sample>)
    requires RunDefined(FromConfig(cfg), st, ss) && (st.count < 2 ==> !st.useDrift)
    ensures var n, seen := Run(FromConfig(cfg), st, ss), |Accepted(st.lastUpdate, ss)|;
      if seen == 0 then n == st
      else if (if st.count >= 2 then 2 else st.count as int) + seen <= 2 then !n.useDrift
      else UseRule(n, cfg.driftSignificanceThreshold)
    decreases |ss|
  {
    if ss == [] {
    } else {
      var p, s := FromConfig(cfg), ss[0];
      if Stale(st, s) {
        DriftUsedAfter(cfg, st, ss[1..]);
      } else {
        AcceptedFirst(st.lastUpdate, ss);
        StepTime(p, st, s);
        RunOne(p, st, ss);
        StepCount(p, st, s);
        if st.count >= 2 { StepUse(cfg, st, s); }
        hide Step, Defined, FromConfig, Run, RunDefined, Accepted, UseRule;
        DriftUsedAfter(cfg, Step(p, st, s), ss[1..]);
      }
    }
  }

  lemma StepCount(p: Params, st: State, s: Sample)
    requires Defined(p, st, s) && !Stale(st, s)
    ensures var n := Step(p, st, s);
      if st.count < 2 then n.count == st.count + 1 && n.useDrift == st.useDrift else n.count >= 2
  {
  }

  /**
   So over samples on one line A + B*t conversions extrapolate along the line exactly when there are three of them and B
   stands out, and otherwise add the line's value at the last sample. A clock without drift never extrapolates.
   */
  lemma LineConversion(cfg: Config, ss: seq<Sample>, A: real, B: real, c: int, platform: int)
    requires RunDefined(FromConfig(cfg), FRESH, ss) && |Accepted(0, ss)| >= 2
    requires forall i :: 0 <= i < |ss| ==> OnLine(ss[i], A, B)
    ensures var st, k, acc := Run(FromConfig(cfg), FRESH, ss), cfg.driftSignificanceThreshold, Accepted(0, ss);
      var used := |acc| >= 3 && B * B > k * k * st.cov.dd;
      && (B == 0.0 ==> !used)
      && FromClient(Known(st), c, platform)
           == c + Round(Line(A, B, if used then c as real else acc[|acc| - 1].time as real))
  {
    hide Run, RunDefined, Accepted, Round, FromConfig, Line, ServerTime, Sound, PSD, Det;
    var p := FromConfig(cfg);
    TracksLine(p, FRESH, ss, A, B);
    ExactConversion(p, ss, A, B, c);
    DriftUsedAfter(cfg, FRESH, ss);
    LastTime(p, FRESH, ss);
    FreshSound();
    RunSound(p, FRESH, ss);
    var st := Run(p, FRESH, ss);
    SoundDrift(Known(st));
    NoDriftNoUse(cfg.driftSignificanceThreshold, st.cov.dd);
  }

  lemma SoundDrift(e: Estimate)
    requires Sound(e) && e.Known?
    ensures e.st.cov.dd >= 0.0
  {
  }

  lemma NoDriftNoUse(k: real, dd: real)
    requires dd >= 0.0
    ensures !(0.0 * 0.0 > k * k * dd)
  {
    SqSign(k);
    assert Sq(k) == k * k;
    ProductNonnegative(Sq(k), dd);
  }

  lemma {:induction false} LastTime(p: Params, st: State, ss: seq<Sample>)
    requires RunDefined(p, st, ss)
    ensures var acc := Accepted(st.lastUpdate, ss);
      Run(p, st, ss).lastUpdate == if acc == [] then st.lastUpdate else acc[|acc| - 1].time
    decreases |ss|
  {
    if ss == [] {
    } else {
      var s := ss[0];
      if Stale(st, s) {
        LastTime(p, st, ss[1..]);
      } else {
        AcceptedFirst(st.lastUpdate, ss);
        StepTime(p, st, s);
        RunOne(p, st, ss);
        hide Step, Defined, Run, RunDefined, Accepted;
        LastTime(p, Step(p, st, s), ss[1..]);
        LastOfTail(Accepted(st.lastUpdate, ss));
      }
    }
  }

  lemma {:induction false} RunSound(p: Params, st: State, ss: seq<Sample>)
    requires Nonnegative(p) && RunDefined(p, st, ss) && Sound(Known(st))
    ensures Sound(Known(Run(p, st, ss)))
    decreases |ss|
  {
    if ss == [] {
    } else {
      NextSound(p, Known(st), ss[0]);
      hide Sound, Step, Defined;
      RunSound(p, Step(p, st, ss[0]), ss[1..]);
    }
  }

  // ---------------------------------------------------------------- conversions undo each other

  /** Inverting the forward conversion of c, off by err, misses c by err / (1 + e). */
  lemma InvertForward(o: real, e: real, l: real, c: real, err: real)
    requires e > -2.0 / 3.0 && -0.5 <= err <= 0.5
    ensures -1.5 < Invert(o, e, l, c + Extrapolate(o, e, c - l) + err) - c < 1.5
  {
    var y := Invert(o, e, l, c + Extrapolate(o, e, c - l) + err);
    assert y * (1.0 + e) == c + e * (c - l) + err + e * l;
    assert c * (1.0 + e) == c + e * (c - l) + e * l;
    assert (y - c) * (1.0 + e) == err;
    FactorBound(y - c, 1.0 + e, err);
  }

  lemma FactorBound(d: real, f: real, err: real)
    requires f > 1.0 / 3.0 && -0.5 <= err <= 0.5 && d * f == err
    ensures -1.5 < d < 1.5
  {
    assert (1.5 - d) * f == 1.5 * f - err > 0.0;
    assert (d + 1.5) * f == 1.5 * f + err > 0.0;
    SignOf(1.5 - d, f); SignOf(d + 1.5, f);
  }

  /** Converting forward a client time that is off by err from the inverse of s misses s by err * (1 + e). */
  lemma ForwardInvert(o: real, e: real, l: real, s: real, c: real)
    requires -1.0 < e < 2.0 && -0.5 <= c - Invert(o, e, l, s) <= 0.5
    ensures -1.5 < c + Extrapolate(o, e, c - l) - s < 1.5
  {
    var y := Invert(o, e, l, s);
    var err := c - y;
    assert y * (1.0 + e) == s - o + e * l;
    assert c + e * (c - l) == y * (1.0 + e) + err * (1.0 + e) - e * l;
    ErrorBound(err, 1.0 + e);
  }

  lemma ErrorBound(err: real, f: real)
    requires -0.5 <= err <= 0.5 && 0.0 < f < 3.0
    ensures -1.5 < err * f < 1.5
  {
    ProductNonnegative(0.5 - err, f);
    ProductNonnegative(0.5 + err, f);
    Distribute(err, f);
  }

  lemma ProductNonnegative(x: real, y: real)
    requires x >= 0.0 && y >= 0.0
    ensures x * y >= 0.0
  {
  }

  lemma Distribute(err: real, f: real)
    ensures (0.5 - err) * f == 0.5 * f - err * f && (0.5 + err) * f == 0.5 * f + err * f
  {
  }

  /** client -> server -> client, for every integer time. */
  lemma ClientRoundTrip(st: State, c: int)
    requires EffectiveDrift(st) > -2.0 / 3.0
    ensures -1 <= ClientTime(st, ServerTime(st, c)) - c <= 1
  {
    hide Extrapolate, Invert, Round;
    var e, o, l := EffectiveDrift(st), st.offset, st.lastUpdate as real;
    var x := Extrapolate(o, e, (c - st.lastUpdate) as real);
    var err := Round(x) as real - x;
    assert (c - st.lastUpdate) as real == c as real - l;
    InvertForward(o, e, l, c as real, err);
    assert ServerTime(st, c) as real == c as real + x + err;
  }

  /** server -> client -> server, for every integer time. */
  lemma ServerRoundTrip(st: State, s: int)
    requires -1.0 < EffectiveDrift(st) < 2.0
    ensures -1 <= ServerTime(st, ClientTime(st, s)) - s <= 1
  {
    hide Extrapolate, Invert, Round;
    var c := ClientTime(st, s);
    ForwardInvert(st.offset, EffectiveDrift(st), st.lastUpdate as real, s as real, c as real);
    assert (c - st.lastUpdate) as real == c as real - st.lastUpdate as real;
    var x := Extrapolate(st.offset, EffectiveDrift(st), (c - st.lastUpdate) as real);
    assert ServerTime(st, c) as real == c as real + Round(x) as real;
  }

  /** The same for what the object returns, while it holds numbers. */
  lemma ConversionsInvert(st: State, c: int, s: int, platform: int)
    requires -2.0 / 3.0 < EffectiveDrift(st) < 2.0
    ensures -1 <= FromServer(Known(st), FromClient(Known(st), c, platform), platform) - c <= 1
    ensures -1 <= FromClient(Known(st), FromServer(Known(st), s, platform), platform) - s <= 1
  {
    hide ClientTime, ServerTime;
    ClientRoundTrip(st, c);
    ServerRoundTrip(st, s);
  }

  /**
   On a tracked line with drift in use, the client time is the one whose line value makes it s, to the nearest, halves
   away from zero.
   */
  lemma LineInverse(st: State, A: real, B: real, s: int, t: real, platform: int)
    requires Fits(st, A, B) && st.count >= 2 && st.useDrift && B != -1.0 && t + Line(A, B, t) == s as real
    ensures var d := FromServer(Known(st), s, platform) as real - t;
      -0.5 <= d <= 0.5 && (d == 0.5 ==> t > 0.0) && (d == -0.5 ==> t < 0.0)
  {
    var l := st.lastUpdate as real;
    LineStep(A, B, l, t, t - l);
    var y := Invert(st.offset, B, l, s as real);
    assert y * (1.0 + B) == s as real - st.offset + B * l;
    assert t * (1.0 + B) == s as real - st.offset + B * l by {
      assert B * (t - l) == B * t - B * l;
      assert t * (1.0 + B) == t + B * t;
    }
    CancelRight(y, t, 1.0 + B);
  }

  // ---------------------------------------------------------------- conversions keep order

  lemma ServerTimeMonotone(st: State, c1: int, c2: int)
    requires EffectiveDrift(st) > -1.0 && c1 <= c2
    ensures ServerTime(st, c1) <= ServerTime(st, c2)
  {
    if c1 < c2 {
      hide Extrapolate, Round;
      var o, e, t, n := st.offset, EffectiveDrift(st), (c1 - st.lastUpdate) as real, (c2 - c1) as real;
      Advance(o, e, t, n);
      assert (c2 - st.lastUpdate) as real == t + n;
      assert Round(Extrapolate(o, e, t + n)) as real > Round(Extrapolate(o, e, t)) as real - n - 1.0;
    }
  }

  lemma Advance(o: real, e: real, t: real, n: real)
    requires e > -1.0 && n > 0.0
    ensures Extrapolate(o, e, t + n) > Extrapolate(o, e, t) - n
  {
    assert (1.0 + e) * n > 0.0;
  }

  lemma ClientTimeMonotone(st: State, s1: int, s2: int)
    requires EffectiveDrift(st) > -1.0 && s1 <= s2
    ensures ClientTime(st, s1) <= ClientTime(st, s2)
  {
    var e, l := EffectiveDrift(st), st.lastUpdate as real;
    InvertMonotone(st.offset, e, l, s1 as real, s2 as real);
    RoundMonotone(Invert(st.offset, e, l, s1 as real), Invert(st.offset, e, l, s2 as real));
  }

  lemma InvertMonotone(o: real, e: real, l: real, s1: real, s2: real)
    requires e > -1.0 && s1 <= s2
    ensures Invert(o, e, l, s1) <= Invert(o, e, l, s2)
  {
    var y1, y2 := Invert(o, e, l, s1), Invert(o, e, l, s2);
    assert y1 * (1.0 + e) == s1 - o + e * l && y2 * (1.0 + e) == s2 - o + e * l;
    assert (y2 - y1) * (1.0 + e) == s2 - s1;
    SignOf(y2 - y1, 1.0 + e);
  }
}
