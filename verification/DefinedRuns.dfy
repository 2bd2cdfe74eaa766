/** When a run of the clock filter divides by zero, for every configuration with a nonzero forget factor. */
module DefinedRuns {
  import opened Numbers
  import opened Kalman
  import opened TimeFilters
  import opened LeastSquares

  // ---------------------------------------------------------------- offset noise: never

  /** What the first sample leaves uncertain. */
  ghost predicate First(st: State) { st.count == 1 && st.cov.oo >= 0.0 && st.cov.od == 0.0 && st.cov.dd == 0.0 }

  lemma FirstStep(p: Params, s: Sample)
    requires Nonnegative(p) && !Stale(FRESH, s)
    ensures First(Step(p, FRESH, s)) && Step(p, FRESH, s).lastUpdate == s.time
    ensures Step(p, FRESH, s).cov.oo > 0.0 <==> s.maxError != 0
  {
    MeasVarPositive(p, s);
  }

  lemma {:induction false} OffsetNoiseDefined(p: Params, st: State, ss: seq<Sample>)
    requires WellFormed(p) && p.processVariance > 0.0 && Sound(Known(st))
    ensures RunDefined(p, st, ss)
    decreases |ss|
  {
    if ss == [] {
    } else {
      var s := ss[0];
      OffsetNoiseStep(p, st, s);
      NextSound(p, Known(st), s);
      hide Defined, Step, Sound;
      OffsetNoiseDefined(p, Step(p, st, s), ss[1..]);
    }
  }

  lemma OffsetNoiseStep(p: Params, st: State, s: Sample)
    requires WellFormed(p) && p.processVariance > 0.0 && Sound(Known(st))
    ensures Defined(p, st, s) && Next(p, Known(st), s) == Known(Step(p, st, s))
  {
    hide MeasVar, PredictedCov, Step;
    if !Stale(st, s) && st.count >= 2 {
      MeasVarPositive(p, s);
      PredictedCovSound(p, st, s);
    }
  }

  // ---------------------------------------------------------------- drift noise only: three zero errors at the start

  /** The first three accepted samples all report a zero error, i.e. a round trip under 2 microseconds. */
  predicate ThreeZeroErrors(acc: seq<Sample>) {
    |acc| >= 3 && acc[0].maxError == 0 && acc[1].maxError == 0 && acc[2].maxError == 0
  }

  /** Past danger: there is uncertainty in the drift, and the covariance is regular or has no other entry. */
  ghost predicate SafeCov(c: Cov) {
    PSD(c) && c.dd > 0.0 && (Det(c) > 0.0 || (c.oo == 0.0 && c.od == 0.0))
  }

  ghost predicate Safe(st: State) { st.count >= 2 && SafeCov(st.cov) }

  predicate DriftNoise(p: Params) { WellFormed(p) && p.driftProcessVariance > 0.0 }

  lemma SafePrediction(p: Params, st: State, s: Sample)
    requires DriftNoise(p) && Safe(st) && !Stale(st, s)
    ensures PD(PredictedCov(p, st, s))
  {
    var dt, q, qd := Dt(st, s), p.processVariance, p.driftProcessVariance;
    SafePredict(st.cov, dt, q, qd);
    PredictedCovScales(p, st, s);
    hide Predict, Scale, PredictedCov, PSD, PD, Det;
    ScalePSD(Predict(st.cov, dt, q, qd), Inflation(p, st, s));
  }

  lemma SafePredict(c: Cov, dt: real, q: real, qd: real)
    requires PSD(c) && c.dd > 0.0 && (Det(c) > 0.0 || (c.oo == 0.0 && c.od == 0.0))
    requires dt > 0.0 && q >= 0.0 && qd > 0.0
    ensures PSD(Predict(c, dt, q, qd)) && PD(Predict(c, dt, q, qd))
  {
    PredictPSD(c, dt, q, qd);
    if Det(c) > 0.0 {
      PositiveCorner(c.oo, c.od, c.dd);
    } else {
      PredictDet(c, dt, q, qd);
      var n := Predict(c, dt, q, qd);
      var b := c.od + c.dd * dt;
      assert b > 0.0;
      MulSign(b, b);
      assert Mul(b, b) == b * b;
      assert (n.oo - dt * q) * c.dd > 0.0;
      SignOf(n.oo - dt * q, c.dd);
      assert dt * q >= 0.0;
      assert (dt * qd) * n.oo > 0.0 && (dt * q) * c.dd >= 0.0;
    }
  }

  lemma PositiveCorner(a: real, b: real, d: real)
    requires d > 0.0 && a * d - b * b > 0.0
    ensures a > 0.0
  {
    assert b * b >= 0.0;
    SignOf(a, d);
  }

  lemma StepSafe(p: Params, st: State, s: Sample)
    requires DriftNoise(p) && Safe(st)
    ensures Defined(p, st, s) && Safe(Step(p, st, s))
  {
    if !Stale(st, s) {
      SafePrediction(p, st, s);
      MeasVarPositive(p, s);
      var c, r := PredictedCov(p, st, s), MeasVar(p, s);
      CorrectPSD(c, r);
      if r == 0.0 { ExactMeasurement(c); }
    }
  }

  /** A measurement without error leaves only the drift uncertain. */
  lemma ExactMeasurement(c: Cov)
    requires PD(c)
    ensures var n := Correct(c, 0.0); n.oo == 0.0 && n.od == 0.0 && n.dd > 0.0 && PSD(n)
  {
    CorrectPSD(c, 0.0);
    CorrectForm(c, 0.0);
    var n := Correct(c, 0.0);
    CancelRight(n.oo, 0.0, c.oo);
    CancelRight(n.od, 0.0, c.oo);
    SignOf(n.dd, c.oo);
  }

  lemma {:induction false} RunSafe(p: Params, st: State, ss: seq<Sample>)
    requires DriftNoise(p) && Safe(st)
    ensures RunDefined(p, st, ss)
    decreases |ss|
  {
    if ss == [] {
    } else {
      StepSafe(p, st, ss[0]);
      RunSafe(p, Step(p, st, ss[0]), ss[1..]);
    }
  }

  /** Two samples accepted, both without error: nothing is uncertain. */
  lemma {:induction false} RunFromCertain(p: Params, st: State, ss: seq<Sample>)
    requires DriftNoise(p) && p.processVariance == 0.0 && st.count == 2 && st.cov == Cov(0.0, 0.0, 0.0)
    ensures var acc := Accepted(st.lastUpdate, ss);
      RunDefined(p, st, ss) <==> acc == [] || acc[0].maxError != 0
    decreases |ss|
  {
    if ss == [] {
    } else {
      var s := ss[0];
      if Stale(st, s) {
        RunFromCertain(p, st, ss[1..]);
      } else {
        CertainStep(p, st, s);
        assert Accepted(st.lastUpdate, ss)[0] == s;
        if Defined(p, st, s) { RunSafe(p, Step(p, st, s), ss[1..]); }
      }
    }
  }

  lemma CertainStep(p: Params, st: State, s: Sample)
    requires DriftNoise(p) && p.processVariance == 0.0 && st.count == 2 && st.cov == Cov(0.0, 0.0, 0.0) && !Stale(st, s)
    ensures Defined(p, st, s) <==> s.maxError != 0
    ensures Defined(p, st, s) ==> Safe(Step(p, st, s)) && Step(p, st, s).lastUpdate == s.time
  {
    hide PredictedCov, MeasVar, Predict, Scale, PSD, PD, Inflation, Step, Correct, SafeCov;
    MeasVarPositive(p, s);
    PredictedCovScales(p, st, s);
    InflationSign(p, st, s);
    CertainPrediction(Dt(st, s), p.driftProcessVariance, Inflation(p, st, s));
    if Defined(p, st, s) {
      StepKalman(p, st, s);
      StepTime(p, st, s);
      CertainCorrection(PredictedCov(p, st, s), MeasVar(p, s));
    }
  }

  lemma CertainPrediction(dt: real, qd: real, f: real)
    requires dt > 0.0 && qd > 0.0 && f > 0.0
    ensures var c := Scale(Predict(Cov(0.0, 0.0, 0.0), dt, 0.0, qd), f); c.oo == 0.0 && c.od == 0.0 && c.dd > 0.0
  {
    ProductPositive(dt, qd);
    ProductPositive(dt * qd, f);
  }

  /** Nothing is learned about the drift from an offset that is certain already. */
  lemma CertainCorrection(c: Cov, r: real)
    requires c.oo == 0.0 && c.od == 0.0 && c.dd > 0.0 && r != 0.0
    ensures SafeCov(Correct(c, r))
  {
    ZeroGain(c, r);
  }

  lemma ZeroGain(c: Cov, r: real)
    requires c.oo == 0.0 && c.od == 0.0 && r != 0.0
    ensures Correct(c, r) == c
  {
    var i := 1.0 / (c.oo + r);
    assert c.oo * i == 0.0 && c.od * i == 0.0;
  }

  // ---------------------------------------------------------------- no noise: a budget of zero errors

  function ZeroErrors(ss: seq<Sample>): nat {
    if ss == [] then 0 else (if ss[0].maxError == 0 then 1 else 0) + ZeroErrors(ss[1..])
  }

  /** The rank of a covariance: how many independent quantities are still uncertain. */
  ghost predicate Rank(c: Cov, k: nat) {
    match k
    case 2 => PD(c)
    case 1 => c.oo >= 0.0 && c.od >= 0.0 && c.dd > 0.0 && Det(c) == 0.0
    case 0 => c == Cov(0.0, 0.0, 0.0)
    case _ => false
  }

  /** Prediction and inflation keep the rank, and spread whatever is uncertain to the offset. */
  lemma RankPredict(c: Cov, dt: real, f: real, k: nat)
    requires Rank(c, k) && dt > 0.0 && f > 0.0
    ensures var n := Scale(Predict(c, dt, 0.0, 0.0), f); Rank(n, k) && (k > 0 ==> n.oo > 0.0)
  {
    hide Predict, Scale, Det;
    var n := Predict(c, dt, 0.0, 0.0);
    match k
    case 2 =>
      PDSigns(c);
      PredictPSD(c, dt, 0.0, 0.0);
      ScalePSD(n, f);
    case 1 =>
      SingularPredict(c, dt);
      SingularScale(n, f);
    case _ =>
      ZeroPredict(c, dt, f);
  }

  lemma ZeroPredict(c: Cov, dt: real, f: real)
    requires c == Cov(0.0, 0.0, 0.0)
    ensures Scale(Predict(c, dt, 0.0, 0.0), f) == c
  {
  }

  lemma SingularPredict(c: Cov, dt: real)
    requires Rank(c, 1) && dt > 0.0
    ensures var n := Predict(c, dt, 0.0, 0.0); Rank(n, 1) && n.oo > 0.0 && n.od > 0.0
  {
    PredictDet(c, dt, 0.0, 0.0);
    ProductPositive(c.dd, dt);
    var n := Predict(c, dt, 0.0, 0.0);
    assert n.od == c.od + c.dd * dt && n.dd == c.dd;
    hide Predict, Det;
    ProductPositive(n.od, n.od);
    SignOf(n.oo, n.dd);
  }

  lemma SingularScale(c: Cov, f: real)
    requires Rank(c, 1) && c.oo > 0.0 && c.od > 0.0 && f > 0.0
    ensures Rank(Scale(c, f), 1) && Scale(c, f).oo > 0.0
  {
    hide Det;
    ScaleDet(c, f);
    ProductPositive(c.oo, f); ProductPositive(c.od, f); ProductPositive(c.dd, f);
  }

  /** A measurement with an error keeps the rank; one without takes one away. */
  lemma RankCorrect(c: Cov, r: real, k: nat)
    requires Rank(c, k) && (k > 0 ==> c.oo > 0.0) && r >= 0.0 && c.oo + r > 0.0
    ensures Rank(Correct(c, r), if r > 0.0 then k else k - 1)
  {
    hide Correct, Det;
    PDSigns(c);
    var n := Correct(c, r);
    if k == 0 {
      ZeroGain(c, r);
    } else {
      CorrectForm(c, r);
      if r == 0.0 {
        ZeroProducts(c, r);
        ExactCorrection(c, n);
      } else if k == 2 {
        CorrectPSD(c, r);
      } else {
        SingularCorrection(c, n, r);
      }
    }
  }

  lemma ZeroProducts(c: Cov, r: real)
    requires r == 0.0
    ensures c.oo * r == 0.0 && c.od * r == 0.0 && c.dd * r == 0.0
  {
  }

  lemma ExactCorrection(c: Cov, n: Cov)
    requires c.oo > 0.0 && n.oo * c.oo == 0.0 && n.od * c.oo == 0.0 && n.dd * c.oo == Det(c)
    ensures n.oo == 0.0 && n.od == 0.0 && (Det(c) == 0.0 ==> n.dd == 0.0) && (Det(c) > 0.0 ==> n.dd > 0.0)
    ensures Det(n) == 0.0
  {
    CancelRight(n.oo, 0.0, c.oo);
    CancelRight(n.od, 0.0, c.oo);
    if Det(c) == 0.0 { CancelRight(n.dd, 0.0, c.oo); }
    SignOf(n.dd, c.oo);
  }

  lemma SingularCorrection(c: Cov, n: Cov, r: real)
    requires c.oo > 0.0 && c.od >= 0.0 && c.dd > 0.0 && Det(c) == 0.0 && r > 0.0
    requires var s := c.oo + r;
      n.oo * s == c.oo * r && n.od * s == c.od * r && n.dd * s == Det(c) + c.dd * r && Det(n) * s == Det(c) * r
    ensures Rank(n, 1)
  {
    var s := c.oo + r;
    ProductPositive(c.oo, r); ProductPositive(c.dd, r);
    assert c.od * r >= 0.0;
    SignOf(n.oo, s); SignOf(n.od, s); SignOf(n.dd, s);
    CancelRight(Det(n), 0.0, s);
  }

  lemma RankStep(p: Params, st: State, s: Sample, k: nat)
    requires Noiseless(p) && st.count >= 2 && !Stale(st, s) && Rank(st.cov, k)
    ensures Defined(p, st, s) <==> k > 0 || s.maxError != 0
    ensures Defined(p, st, s) ==>
      var n := Step(p, st, s);
        n.count >= 2 && n.lastUpdate == s.time && Rank(n.cov, if s.maxError != 0 then k else k - 1)
  {
    hide PredictedCov, MeasVar, Predict, Scale, Rank, Correct, Inflation, Step;
    MeasVarPositive(p, s);
    PredictedCovScales(p, st, s);
    InflationSign(p, st, s);
    RankPredict(st.cov, Dt(st, s), Inflation(p, st, s), k);
    var c, r := PredictedCov(p, st, s), MeasVar(p, s);
    RankZero(c, k);
    if Defined(p, st, s) {
      StepKalman(p, st, s);
      StepTime(p, st, s);
      RankCorrect(c, r, k);
    }
  }

  lemma RankZero(c: Cov, k: nat)
    requires Rank(c, k)
    ensures k == 0 ==> c.oo == 0.0
  {
  }

  /** From the second sample on, a run survives as many zero errors as its covariance has rank. */
  lemma {:induction false} RunByRank(p: Params, st: State, ss: seq<Sample>, k: nat)
    requires Noiseless(p) && st.count >= 2 && Rank(st.cov, k)
    ensures RunDefined(p, st, ss) <==> ZeroErrors(Accepted(st.lastUpdate, ss)) <= k
    decreases |ss|
  {
    if ss == [] {
    } else {
      hide Rank, Step;
      var s := ss[0];
      if Stale(st, s) {
        RunByRank(p, st, ss[1..], k);
      } else {
        RankStep(p, st, s, k);
        AcceptedFirst(st.lastUpdate, ss);
        hide Defined;
        if Defined(p, st, s) {
          RunByRank(p, Step(p, st, s), ss[1..], if s.maxError != 0 then k else k - 1);
        }
      }
    }
  }

  // ---------------------------------------------------------------- every run from a fresh filter

  /** From the first sample on, given the later samples accepted. */
  predicate SafeAfterFirst(p: Params, firstZero: bool, acc: seq<Sample>) {
    if p.processVariance > 0.0 then true
    else if p.driftProcessVariance > 0.0 then
      !(firstZero && |acc| >= 2 && acc[0].maxError == 0 && acc[1].maxError == 0)
    else
      acc == [] || ZeroErrors(acc[1..]) <= if acc[0].maxError != 0 then 2 else if !firstZero then 1 else 0
  }

  /**
   The condition, on the accepted samples alone. Without drift noise a run that starts with two good samples survives
   two zero errors later on, one that starts good and then zero survives one, and one that starts with a zero survives
   two if the second is good and none if it is not.
   */
  predicate SafeErrors(p: Params, acc: seq<Sample>) {
    if p.processVariance > 0.0 then true
    else if p.driftProcessVariance > 0.0 then !ThreeZeroErrors(acc)
    else
      |acc| < 2 || ZeroErrors(acc[2..]) <= if acc[1].maxError != 0 then 2 else if acc[0].maxError != 0 then 1 else 0
  }

  lemma {:induction false} RunFromFirst(p: Params, st: State, ss: seq<Sample>)
    requires WellFormed(p) && First(st)
    ensures RunDefined(p, st, ss) <==> SafeAfterFirst(p, st.cov.oo == 0.0, Accepted(st.lastUpdate, ss))
    decreases |ss|
  {
    if p.processVariance > 0.0 {
      OffsetNoiseDefined(p, st, ss);
    } else if ss != [] {
      var s := ss[0];
      if Stale(st, s) {
        RunFromFirst(p, st, ss[1..]);
      } else {
        SecondCov(p, st, s);
        SecondTime(p, st, s);
        AcceptedFirst(st.lastUpdate, ss);
        hide Step;
        RunAfterSecond(p, Step(p, st, s), ss[1..], st.cov.oo == 0.0, s);
      }
    }
  }

  lemma SecondTime(p: Params, st: State, s: Sample)
    requires st.count == 1 && !Stale(st, s)
    ensures Defined(p, st, s) && Step(p, st, s).lastUpdate == s.time && Step(p, st, s).count == 2
  {
  }

  lemma RunAfterSecond(p: Params, n: State, ss: seq<Sample>, firstZero: bool, s: Sample)
    requires WellFormed(p) && p.processVariance == 0.0 && n.count == 2 && n.lastUpdate == s.time
    requires n.cov == Cov(MeasVar(p, s), 0.0, n.cov.dd) && PSD(n.cov) && (s.maxError != 0 ==> PD(n.cov))
    requires n.cov.dd > 0.0 <==> !firstZero || s.maxError != 0
    ensures RunDefined(p, n, ss) <==> SafeAfterFirst(p, firstZero, [s] + Accepted(n.lastUpdate, ss))
  {
    MeasVarPositive(p, s);
    var acc := Accepted(n.lastUpdate, ss);
    assert ([s] + acc)[1..] == acc;
    if p.driftProcessVariance > 0.0 {
      if n.cov.dd > 0.0 { RunSafe(p, n, ss); } else { RunFromCertain(p, n, ss); }
    } else {
      RunByRank(p, n, ss, if s.maxError != 0 then 2 else if !firstZero then 1 else 0);
    }
  }

  /** Main result: for every configuration with a nonzero forget factor, a run divides by zero unless SafeErrors. */
  lemma {:induction false} RunDefinedIff(p: Params, ss: seq<Sample>)
    requires WellFormed(p)
    ensures RunDefined(p, FRESH, ss) <==> SafeErrors(p, Accepted(0, ss))
    decreases |ss|
  {
    if ss == [] {
    } else {
      var s := ss[0];
      if Stale(FRESH, s) {
        RunDefinedIff(p, ss[1..]);
      } else {
        FirstStep(p, s);
        AcceptedFirst(0, ss);
        RunFromFirst(p, Step(p, FRESH, s), ss[1..]);
        var rest := Accepted(s.time, ss[1..]);
        SafeFromFirst(p, s, rest);
      }
    }
  }

  lemma SafeFromFirst(p: Params, s: Sample, rest: seq<Sample>)
    ensures SafeErrors(p, [s] + rest) <==> SafeAfterFirst(p, s.maxError == 0, rest)
  {
    if rest != [] { assert ([s] + rest)[2..] == rest[1..]; }
  }

  /** What the object makes of a run: numbers if and only if the run is safe. */
  lemma HoldsNumbersIff(p: Params, ss: seq<Sample>)
    requires WellFormed(p)
    ensures After(p, Known(FRESH), ss).Known? <==> SafeErrors(p, Accepted(0, ss))
  {
    RunDefinedIff(p, ss);
    AfterIs(p, FRESH, ss);
  }

  /**
   One update, for every configuration, a forget factor of zero included: it divides by zero if and only if the sample
   has no error and the predicted offset variance is zero, or is made zero by an outlier when the factor is.
   */
  lemma UpdateDefinedIff(p: Params, st: State, s: Sample)
    requires Nonnegative(p) && Sound(Known(st)) && st.count >= 2 && !Stale(st, s)
    ensures Defined(p, st, s) <==>
      || s.maxError != 0
      || (&& Predict(st.cov, Dt(st, s), p.processVariance, p.driftProcessVariance).oo > 0.0
          && (p.forgetVarianceFactor == 0.0 ==> st.count < p.minSamples || Residual(st, s) == 0.0))
  {
    MeasVarPositive(p, s);
    SoundCov(Known(st));
    PredictedCovSound(p, st, s);
    PredictedCovScales(p, st, s);
    if s.maxError == 0 { InflationIs(p, st, s); }
    InflationSign(p, st, s);
    var c, f := Predict(st.cov, Dt(st, s), p.processVariance, p.driftProcessVariance), Inflation(p, st, s);
    PredictPSD(st.cov, Dt(st, s), p.processVariance, p.driftProcessVariance);
    hide Predict, PredictedCov, MeasVar, Inflation, Residual, Dt;
    VarianceScales(c.oo, f);
  }

  lemma InflationIs(p: Params, st: State, s: Sample)
    requires s.maxError == 0
    ensures Inflation(p, st, s)
      == if st.count >= p.minSamples && Residual(st, s) != 0.0 then p.forgetVarianceFactor else 1.0
  {
    hide Residual;
  }

  lemma VarianceScales(x: real, f: real)
    requires x >= 0.0 && f >= 0.0
    ensures x * f >= 0.0 && (x * f == 0.0 <==> x == 0.0 || f == 0.0)
  {
    if x > 0.0 && f > 0.0 { ProductPositive(x, f); }
  }

  /** Three replies with round trips under 2 microseconds right after start, on the default configuration. */
  lemma DefaultConfigDividesByZero()
    ensures var p := FromConfig(DEFAULT_CONFIG);
      var ss := [Sample(7, 0, 1), Sample(7, 0, 2), Sample(7, 0, 3)];
      DriftNoise(p) && !RunDefined(p, FRESH, ss)
  {
    var p := FromConfig(DEFAULT_CONFIG);
    SqSign(0.00000000001);
    SqSign(0.0);
    var ss := [Sample(7, 0, 1), Sample(7, 0, 2), Sample(7, 0, 3)];
    assert Accepted(0, ss) == [ss[0]] + Accepted(1, ss[1..]);
    assert Accepted(1, ss[1..]) == [ss[1]] + Accepted(2, ss[1..][1..]);
    assert Accepted(2, ss[1..][1..]) == [ss[2]] + Accepted(3, ss[1..][1..][1..]);
    RunDefinedIff(p, ss);
  }

  /**
   Without any noise it also happens late: two good samples, then any number of good ones and the third zero error.
   */
  lemma LateDivisionByZero(p: Params, ss: seq<Sample>)
    requires Noiseless(p) && |Accepted(0, ss)| >= 2 && ZeroErrors(Accepted(0, ss)[2..]) >= 3
    ensures !RunDefined(p, FRESH, ss)
  {
    RunDefinedIff(p, ss);
  }
}
