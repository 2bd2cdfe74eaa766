/** The clock filter of pkg/sync/timefilter.go over the reals. */
module TimeFilters {
  import opened Numbers
  import opened Kalman

  datatype Config = Config(
    processStdDev: real, driftProcessStdDev: real, forgetFactor: real, adaptiveCutoff: real,
    minSamples: uint8, driftSignificanceThreshold: real, maxErrorScale: real)

  /** What NewTimeFilter keeps of the configuration. */
  datatype Params = Params(
    processVariance: real, driftProcessVariance: real, forgetVarianceFactor: real, adaptiveForgettingCutoff: real,
    driftSignificanceThresholdSq: real, maxErrorScale: real, minSamples: uint8)

  const DEFAULT_CONFIG := Config(0.0, 0.00000000001, 2.0, 3.0, 100, 2.0, 0.5)

  function FromConfig(cfg: Config): (p: Params)
    ensures Nonnegative(p)
    ensures WellFormed(p) <==> cfg.forgetFactor != 0.0
  {
    SqSign(cfg.processStdDev); SqSign(cfg.driftProcessStdDev); SqSign(cfg.forgetFactor);
    Params(Sq(cfg.processStdDev), Sq(cfg.driftProcessStdDev), Sq(cfg.forgetFactor), cfg.adaptiveCutoff,
           Sq(cfg.driftSignificanceThreshold),
           if cfg.maxErrorScale <= 0.0 then 1.0 else cfg.maxErrorScale, cfg.minSamples)
  }

  predicate Nonnegative(p: Params) {
    p.processVariance >= 0.0 && p.driftProcessVariance >= 0.0 && p.forgetVarianceFactor >= 0.0 && p.maxErrorScale > 0.0
  }

  predicate WellFormed(p: Params) { Nonnegative(p) && p.forgetVarianceFactor > 0.0 }

  datatype Sample = Sample(measurement: int, maxError: int, time: int)

  /** offsetUnknown stands for an offset variance of +Inf; cov.oo is then not read. */
  datatype State = State(
    lastUpdate: int, offset: real, drift: real, offsetUnknown: bool, cov: Cov, useDrift: bool, count: uint8)

  const FRESH := State(0, 0.0, 0.0, true, Cov(0.0, 0.0, 0.0), false, 0)

  // ---------------------------------------------------------------- one update

  predicate Stale(st: State, s: Sample) { s.time <= st.lastUpdate }

  function Dt(st: State, s: Sample): real { (s.time - st.lastUpdate) as real }

  function MeasVar(p: Params, s: Sample): real {
    Sq(s.maxError as real * p.maxErrorScale)
  }

  function PredictedOffset(st: State, s: Sample): real { st.offset + st.drift * Dt(st, s) }

  function Residual(st: State, s: Sample): real { s.measurement as real - PredictedOffset(st, s) }

  /** The covariances are inflated: enough samples were seen and the residual is an outlier. */
  predicate Forgets(p: Params, st: State, s: Sample) {
    st.count >= p.minSamples && Abs(Residual(st, s)) > s.maxError as real * p.adaptiveForgettingCutoff
  }

  function Inflation(p: Params, st: State, s: Sample): real {
    if Forgets(p, st, s) then p.forgetVarianceFactor else 1.0
  }

  function PredictedCov(p: Params, st: State, s: Sample): Cov {
    var c := Predict(st.cov, Dt(st, s), p.processVariance, p.driftProcessVariance);
    if Forgets(p, st, s) then Scale(c, p.forgetVarianceFactor) else c
  }

  /** The same in the code's intermediate values. */
  lemma PredictedCovForm(p: Params, st: State, s: Sample, dt: real, oo: real, od: real, dd: real)
    requires dt == Dt(st, s) && dd == st.cov.dd + dt * p.driftProcessVariance && od == st.cov.od + st.cov.dd * dt
    requires oo == st.cov.oo + 2.0 * st.cov.od * dt + st.cov.dd * (dt * dt) + dt * p.processVariance
    ensures PredictedCov(p, st, s) ==
      if Forgets(p, st, s)
      then Cov(oo * p.forgetVarianceFactor, od * p.forgetVarianceFactor, dd * p.forgetVarianceFactor)
      else Cov(oo, od, dd)
  {
    assert Predict(st.cov, dt, p.processVariance, p.driftProcessVariance) == Cov(oo, od, dd);
    hide Forgets;
  }

  lemma PredictedCovScales(p: Params, st: State, s: Sample)
    ensures PredictedCov(p, st, s)
         == Scale(Predict(st.cov, Dt(st, s), p.processVariance, p.driftProcessVariance), Inflation(p, st, s))
  {
    hide Predict, Forgets;
  }

  function InnovationVar(p: Params, st: State, s: Sample): real { PredictedCov(p, st, s).oo + MeasVar(p, s) }

  /** The update does not divide by zero. */
  predicate Defined(p: Params, st: State, s: Sample) {
    Stale(st, s) || st.count < 2 || InnovationVar(p, st, s) != 0.0
  }

  /** The drift estimate stands out of its own uncertainty, so conversions use it. */
  predicate Significant(p: Params, drift: real, dd: real) { drift * drift > p.driftSignificanceThresholdSq * dd }

  /** The Kalman update proper, from predicted offset, residual z, predicted covariance c and error variance r. */
  function Corrected(p: Params, st: State, predOffset: real, z: real, c: Cov, r: real): State
    requires c.oo + r != 0.0
  {
    Gained(p, st, predOffset, z, c, Gain(c.oo, c.oo + r), Gain(c.od, c.oo + r))
  }

  /** What the gains k0 and k1 make of the residual z. */
  function Gained(p: Params, st: State, predOffset: real, z: real, c: Cov, k0: real, k1: real): State {
    var drift := st.drift + k1 * z;
    var n := WithGains(c, k0, k1);
    st.(offset := predOffset + k0 * z, drift := drift, cov := n, useDrift := Significant(p, drift, n.dd))
  }

  function Counted(p: Params, count: uint8): uint8 { if count < p.minSamples then count + 1 else count }

  /** The first sample is the offset. */
  function AfterFirst(st: State, time: int, m: real, r: real): State {
    State(time, m, 0.0, false, st.cov.(oo := r), st.useDrift, 1)
  }

  /** The second gives the drift, by finite differences. */
  function AfterSecond(st: State, time: int, m: real, dt: real, r: real): State
    requires dt != 0.0
  {
    NonZeroProduct(dt, dt);
    State(time, m, (m - st.offset) / dt, false, Cov(r, st.cov.od, (st.cov.oo + r) / (dt * dt)), st.useDrift, 2)
  }

  function Step(p: Params, st: State, s: Sample): State
    requires Defined(p, st, s)
  {
    var dt, r, m := Dt(st, s), MeasVar(p, s), s.measurement as real;
    if Stale(st, s) then st
    else if st.count == 0 then AfterFirst(st, s.time, m, r)
    else if st.count == 1 then AfterSecond(st, s.time, m, dt, r)
    else
      Corrected(p, st.(lastUpdate := s.time, count := Counted(p, st.count)),
                PredictedOffset(st, s), Residual(st, s), PredictedCov(p, st, s), r)
  }

  lemma ResidualForm(p: Params, st: State, s: Sample, dt: real, predOffset: real, residual: real, cutoff: real)
    requires dt == Dt(st, s) && predOffset == st.offset + st.drift * dt
    requires residual == s.measurement as real - predOffset
    requires cutoff == s.maxError as real * p.adaptiveForgettingCutoff
    ensures predOffset == PredictedOffset(st, s) && residual == Residual(st, s)
    ensures Forgets(p, st, s) <==> st.count >= p.minSamples && Abs(residual) > cutoff
  {
  }

  lemma StepTime(p: Params, st: State, s: Sample)
    requires Defined(p, st, s) && !Stale(st, s)
    ensures Step(p, st, s).lastUpdate == s.time
  {
  }

  // ---------------------------------------------------------------- runs

  /** Every update of the run is defined. */
  predicate RunDefined(p: Params, st: State, ss: seq<Sample>)
    decreases |ss|
  {
    ss == [] || (Defined(p, st, ss[0]) && RunDefined(p, Step(p, st, ss[0]), ss[1..]))
  }

  function Run(p: Params, st: State, ss: seq<Sample>): State
    requires RunDefined(p, st, ss)
    decreases |ss|
  {
    if ss == [] then st else Run(p, Step(p, st, ss[0]), ss[1..])
  }

  /** The samples a filter last updated at `last` does not skip: each one newer than all before it. */
  function Accepted(last: int, ss: seq<Sample>): (r: seq<Sample>)
    ensures |r| <= |ss|
    ensures forall i :: 0 <= i < |r| ==> r[i] in ss && r[i].time > last
    decreases |ss|
  {
    if ss == [] then []
    else if ss[0].time <= last then Accepted(last, ss[1..])
    else [ss[0]] + Accepted(ss[0].time, ss[1..])
  }

  predicate ErrorsNonzero(ss: seq<Sample>) { forall i :: 0 <= i < |ss| ==> ss[i].maxError != 0 }

  // ---------------------------------------------------------------- the invariant

  ghost predicate Inv(p: Params, st: State) {
    && st.lastUpdate >= 0
    && (st.offsetUnknown <==> st.count == 0)
    && (st.count == 0 ==> st == FRESH)
    && (st.count == 1 ==> st.cov.od == 0.0 && st.cov.dd == 0.0 && st.cov.oo > 0.0 && st.drift == 0.0)
    && (st.count >= 2 ==> PD(st.cov))
    && (st.count <= 2 || st.count <= p.minSamples)
  }

  lemma MeasVarPositive(p: Params, s: Sample)
    requires p.maxErrorScale > 0.0
    ensures MeasVar(p, s) >= 0.0
    ensures MeasVar(p, s) == 0.0 <==> s.maxError == 0
  {
    var e := s.maxError as real;
    SqSign(e * p.maxErrorScale);
    if e != 0.0 { NonZeroProduct(e, p.maxErrorScale); } else { assert e * p.maxErrorScale == 0.0; }
  }

  lemma PredictedCovPSD(p: Params, st: State, s: Sample)
    requires WellFormed(p) && PSD(st.cov) && !Stale(st, s)
    ensures PSD(PredictedCov(p, st, s))
    ensures PD(st.cov) ==> PD(PredictedCov(p, st, s))
  {
    PredictedCovScales(p, st, s);
    PredictPSD(st.cov, Dt(st, s), p.processVariance, p.driftProcessVariance);
    hide Predict, Scale, PredictedCov, Dt;
    ScalePSD(Predict(st.cov, Dt(st, s), p.processVariance, p.driftProcessVariance), Inflation(p, st, s));
  }

  lemma StepInv(p: Params, st: State, s: Sample)
    requires WellFormed(p) && Inv(p, st) && s.maxError != 0
    ensures Defined(p, st, s) && Inv(p, Step(p, st, s))
  {
    MeasVarPositive(p, s);
    if !Stale(st, s) && st.count == 1 {
      SecondCov(p, st, s);
    } else if !Stale(st, s) && st.count >= 2 {
      PredictedCovPSD(p, st, s);
      CorrectPSD(PredictedCov(p, st, s), MeasVar(p, s));
    }
  }

  lemma {:induction false} RunInv(p: Params, st: State, ss: seq<Sample>)
    requires WellFormed(p) && Inv(p, st) && ErrorsNonzero(Accepted(st.lastUpdate, ss))
    ensures RunDefined(p, st, ss) && Inv(p, Run(p, st, ss))
    decreases |ss|
  {
    if ss == [] {
    } else {
      var s := ss[0];
      if Stale(st, s) {
        RunInv(p, st, ss[1..]);
      } else {
        AcceptedFirst(st.lastUpdate, ss);
        assert Accepted(st.lastUpdate, ss)[0] == s;
        StepInv(p, st, s);
        StepTime(p, st, s);
        hide Step, Inv, Defined;
        RunInv(p, Step(p, st, s), ss[1..]);
      }
    }
  }

  lemma RunOne(p: Params, st: State, ss: seq<Sample>)
    requires ss != [] && Defined(p, st, ss[0])
    ensures RunDefined(p, st, ss) <==> RunDefined(p, Step(p, st, ss[0]), ss[1..])
    ensures RunDefined(p, st, ss) ==> Run(p, st, ss) == Run(p, Step(p, st, ss[0]), ss[1..])
  {
    hide Step, Defined;
  }

  lemma AcceptedFirst(last: int, ss: seq<Sample>)
    requires ss != [] && ss[0].time > last
    ensures Accepted(last, ss) == [ss[0]] + Accepted(ss[0].time, ss[1..])
    ensures Accepted(last, ss)[1..] == Accepted(ss[0].time, ss[1..])
  {
  }

  /** Only the samples that are accepted matter. */
  lemma {:induction false} AcceptedOnly(p: Params, st: State, ss: seq<Sample>)
    ensures var acc := Accepted(st.lastUpdate, ss);
      && Accepted(st.lastUpdate, acc) == acc
      && (RunDefined(p, st, ss) <==> RunDefined(p, st, acc))
      && (RunDefined(p, st, ss) ==> Run(p, st, acc) == Run(p, st, ss))
    decreases |ss|
  {
    if ss == [] {
    } else {
      var s := ss[0];
      if Stale(st, s) {
        AcceptedOnly(p, st, ss[1..]);
      } else {
        AcceptedFirst(st.lastUpdate, ss);
        AcceptedTwice(s.time, ss[1..]);
        if Defined(p, st, s) {
          StepTime(p, st, s);
          hide Step, Defined;
          AcceptedOnly(p, Step(p, st, s), ss[1..]);
        }
      }
    }
  }

  lemma {:induction false} AcceptedTwice(last: int, ss: seq<Sample>)
    ensures Accepted(last, Accepted(last, ss)) == Accepted(last, ss)
    decreases |ss|
  {
    if ss == [] {
    } else {
      AcceptedTwice(if ss[0].time > last then ss[0].time else last, ss[1..]);
    }
  }

  predicate Between(x: real, a: real, b: real) { (a <= x <= b) || (b <= x <= a) }

  lemma PDSigns(c: Cov)
    ensures PD(c) ==> PSD(c) && c.oo > 0.0
  {
  }

  /** A Kalman step, seen from its covariance and its line. */
  lemma StepKalman(p: Params, st: State, s: Sample)
    requires !Stale(st, s) && st.count >= 2 && Defined(p, st, s)
    ensures var c, r, n := PredictedCov(p, st, s), MeasVar(p, s), Step(p, st, s);
      && c.oo + r != 0.0 && n.cov == Correct(c, r) && n.count >= 2 && n.offsetUnknown == st.offsetUnknown
      && n.offset == PredictedOffset(st, s) + Gain(c.oo, c.oo + r) * Residual(st, s)
      && n.drift == st.drift + Gain(c.od, c.oo + r) * Residual(st, s) && n.lastUpdate == s.time
  {
    hide PredictedCov, MeasVar, Residual, PredictedOffset, Gain, WithGains, Significant;
  }

  /** What one Kalman step does to the uncertainty: the determinant law, and no variance grows. */
  lemma KalmanUncertainty(p: Params, st: State, s: Sample)
    requires WellFormed(p) && st.count >= 2 && PD(st.cov) && !Stale(st, s) && s.maxError != 0
    ensures InnovationVar(p, st, s) > 0.0
    ensures var c, n := PredictedCov(p, st, s), Step(p, st, s).cov;
      && Det(n) * InnovationVar(p, st, s) == Det(c) * MeasVar(p, s)
      && n.oo <= c.oo && n.oo <= MeasVar(p, s)
  {
    hide PredictedCov, MeasVar, Det, Correct, PSD, PD, Step;
    MeasVarPositive(p, s);
    PDSigns(st.cov);
    PredictedCovPSD(p, st, s);
    PDSigns(PredictedCov(p, st, s));
    StepKalman(p, st, s);
    CorrectForm(PredictedCov(p, st, s), MeasVar(p, s));
    CorrectPSD(PredictedCov(p, st, s), MeasVar(p, s));
  }

  /** What one Kalman step does to the estimate: a gain in [0, 1] blends prediction and measurement. */
  lemma KalmanBlend(p: Params, st: State, s: Sample)
    requires WellFormed(p) && st.count >= 2 && PD(st.cov) && !Stale(st, s) && s.maxError != 0
    ensures InnovationVar(p, st, s) > 0.0
    ensures 0.0 <= PredictedCov(p, st, s).oo / InnovationVar(p, st, s) <= 1.0
    ensures Between(Step(p, st, s).offset, PredictedOffset(st, s), s.measurement as real)
  {
    hide PredictedCov, MeasVar, Det, Correct, PSD, PD, Step, PredictedOffset;
    MeasVarPositive(p, s);
    PDSigns(st.cov);
    PredictedCovPSD(p, st, s);
    PDSigns(PredictedCov(p, st, s));
    StepKalman(p, st, s);
    GainInterpolates(PredictedCov(p, st, s).oo, MeasVar(p, s), Residual(st, s));
  }

  lemma GainInterpolates(a: real, r: real, z: real)
    requires a >= 0.0 && r >= 0.0 && a + r > 0.0
    ensures 0.0 <= a / (a + r) <= 1.0
    ensures Between(Gain(a, a + r) * z, 0.0, z)
  {
    Quotient(a, a + r);
    Fraction(a / (a + r), a, r);
    Interpolate(a / (a + r), z);
  }

  lemma Fraction(g: real, a: real, r: real)
    requires a >= 0.0 && r >= 0.0 && a + r > 0.0 && g * (a + r) == a
    ensures 0.0 <= g <= 1.0
  {
    SignOf(g, a + r);
    assert (1.0 - g) * (a + r) == r;
    SignOf(1.0 - g, a + r);
  }

  lemma Interpolate(g: real, z: real)
    requires 0.0 <= g <= 1.0
    ensures Between(g * z, 0.0, z)
  {
    ProductSign(g, z); ProductSign(g, -z); ProductSign(1.0 - g, z); ProductSign(1.0 - g, -z);
  }

  lemma ProductSign(g: real, z: real)
    requires g >= 0.0
    ensures z >= 0.0 ==> g * z >= 0.0
  {
  }

  // ---------------------------------------------------------------- dividing by zero

  /**
   What the filter holds: numbers, or, after a division by zero, NaN for the offset, the drift and all covariances.
   Then only the time and the count still move, and drift is not used, since a comparison with NaN is false.
   */
  datatype Estimate = Known(st: State) | NotANumber(lastUpdate: int, count: uint8)

  /** The update on any estimate. */
  function Next(p: Params, e: Estimate, s: Sample): Estimate {
    match e
    case Known(st) =>
      if Defined(p, st, s) then Known(Step(p, st, s)) else NotANumber(s.time, Counted(p, st.count))
    case NotANumber(last, count) =>
      if s.time <= last then e else NotANumber(s.time, Counted(p, count))
  }

  /** What Next is from the third sample on. */
  lemma NextForm(p: Params, st: State, s: Sample)
    requires !Stale(st, s) && st.count >= 2
    ensures Next(p, Known(st), s) ==
      if PredictedCov(p, st, s).oo + MeasVar(p, s) == 0.0 then NotANumber(s.time, Counted(p, st.count))
      else Known(Corrected(p, st.(lastUpdate := s.time, count := Counted(p, st.count)),
        PredictedOffset(st, s), Residual(st, s), PredictedCov(p, st, s), MeasVar(p, s)))
  {
    hide PredictedCov, Residual, PredictedOffset, Corrected, MeasVar, Dt;
  }

  lemma StaleNext(p: Params, e: Estimate, s: Sample)
    ensures s.time <= (if e.Known? then e.st.lastUpdate else e.lastUpdate) ==> Next(p, e, s) == e
  {
  }

  /** What Next is for the first two samples. */
  lemma EarlySteps(p: Params, st: State, s: Sample)
    requires !Stale(st, s)
    ensures st.count == 0 ==>
      Next(p, Known(st), s) == Known(AfterFirst(st, s.time, s.measurement as real, MeasVar(p, s)))
    ensures st.count == 1 ==>
      Next(p, Known(st), s) == Known(AfterSecond(st, s.time, s.measurement as real, Dt(st, s), MeasVar(p, s)))
  {
    hide MeasVar, AfterFirst, AfterSecond, Dt;
  }

  lemma SoundCount(e: Estimate)
    ensures Sound(e) && e.NotANumber? ==> e.count >= 2
  {
  }

  /** The time of the last update only matters through the new one. */
  lemma EarlyTime(st: State, t: int, time: int, m: real, dt: real, r: real)
    ensures AfterFirst(st.(lastUpdate := t), time, m, r) == AfterFirst(st, time, m, r)
    ensures dt != 0.0 ==> AfterSecond(st.(lastUpdate := t), time, m, dt, r) == AfterSecond(st, time, m, dt, r)
  {
  }

  lemma FreshSound()
    ensures Sound(Known(FRESH))
  {
  }

  /** What every update keeps, zero errors and all. */
  ghost predicate Sound(e: Estimate) {
    match e
    case Known(st) =>
      && (st.count == 0 ==> st == FRESH)
      && (st.count == 1 ==> st.cov.oo >= 0.0 && st.cov.od == 0.0 && st.cov.dd == 0.0)
      && (st.count >= 2 ==> PSD(st.cov))
    case NotANumber(_, count) => count >= 2
  }

  lemma SoundCov(e: Estimate)
    requires Sound(e) && e.Known?
    ensures PSD(e.st.cov)
  {
  }

  /** Any new filter is sound and every update keeps it so, whatever the configuration and the sample. */
  lemma NextSound(p: Params, e: Estimate, s: Sample)
    requires Nonnegative(p) && Sound(e)
    ensures Sound(Next(p, e, s))
  {
    if e.Known? && !Stale(e.st, s) && Defined(p, e.st, s) {
      var st := e.st;
      MeasVarPositive(p, s);
      SoundCov(e);
      if st.count == 1 {
        SecondCov(p, st, s);
      } else if st.count >= 2 {
        PredictedCovSound(p, st, s);
        hide PredictedCov, MeasVar, Residual, PredictedOffset, Significant;
        CorrectPSD(PredictedCov(p, st, s), MeasVar(p, s));
      }
    }
  }

  /** The second sample's covariance: the first one's variance and its own, over the square of the time between. */
  lemma SecondCov(p: Params, st: State, s: Sample)
    requires Nonnegative(p) && st.count == 1 && !Stale(st, s)
    requires st.cov.oo >= 0.0 && st.cov.od == 0.0 && st.cov.dd == 0.0
    ensures var n := Step(p, st, s).cov; n == Cov(MeasVar(p, s), 0.0, n.dd) && PSD(n)
    ensures Step(p, st, s).cov.dd > 0.0 <==> st.cov.oo > 0.0 || s.maxError != 0
    ensures s.maxError != 0 ==> PD(Step(p, st, s).cov)
  {
    MeasVarPositive(p, s);
    var dt, r := Dt(st, s), MeasVar(p, s);
    SqSign(dt);
    assert Sq(dt) == dt * dt;
    var q := (st.cov.oo + r) / (dt * dt);
    assert q * (dt * dt) == st.cov.oo + r;
    SignOf(q, dt * dt);
    assert r * q >= 0.0;
    if r > 0.0 { assert r * q > 0.0; }
    var n := Step(p, st, s);
    assert n.cov == Cov(r, 0.0, q) && Det(n.cov) == r * q;
  }

  lemma PredictedCovSound(p: Params, st: State, s: Sample)
    requires Nonnegative(p) && PSD(st.cov) && !Stale(st, s)
    ensures PSD(PredictedCov(p, st, s))
    ensures p.processVariance > 0.0 && p.forgetVarianceFactor > 0.0 ==> PredictedCov(p, st, s).oo > 0.0
  {
    var dt, q, qd := Dt(st, s), p.processVariance, p.driftProcessVariance;
    PredictedCovScales(p, st, s);
    PredictPSD(st.cov, dt, q, qd);
    if q > 0.0 { NoisyVariance(st.cov, dt, q, qd); }
    var c, f := Predict(st.cov, dt, q, qd), Inflation(p, st, s);
    InflationSign(p, st, s);
    hide Predict, PredictedCov, Dt, PSD, PD, Inflation;
    if f > 0.0 { ScalePSD(c, f); } else { ScaleZero(c, f); }
    if c.oo > 0.0 && f > 0.0 { ProductPositive(c.oo, f); }
  }

  lemma NoisyVariance(c: Cov, dt: real, q: real, qd: real)
    requires PSD(c) && dt > 0.0 && q > 0.0 && qd >= 0.0
    ensures Predict(c, dt, q, qd).oo > 0.0
  {
    PredictPSD(c, dt, 0.0, qd);
    ProductPositive(dt, q);
    assert Predict(c, dt, q, qd).oo == Predict(c, dt, 0.0, qd).oo + dt * q;
  }

  lemma ProductPositive(x: real, y: real)
    requires x > 0.0 && y > 0.0
    ensures x * y > 0.0
  {
  }

  lemma InflationSign(p: Params, st: State, s: Sample)
    ensures p.forgetVarianceFactor >= 0.0 ==> Inflation(p, st, s) >= 0.0
    ensures p.forgetVarianceFactor > 0.0 ==> Inflation(p, st, s) > 0.0
  {
  }

  lemma ScaleZero(c: Cov, f: real)
    requires f == 0.0
    ensures PSD(Scale(c, f))
  {
  }

  /**
   Why NotANumber: the division by zero finds every variance it multiplies with at zero, so both gains are 0 * Inf,
   and with them all five results are NaN.
   */
  lemma ZeroTimesInf(p: Params, e: Estimate, s: Sample)
    requires Nonnegative(p) && Sound(e) && e.Known? && !Defined(p, e.st, s)
    ensures s.maxError == 0 && PredictedCov(p, e.st, s).oo == 0.0 && PredictedCov(p, e.st, s).od == 0.0
  {
    MeasVarPositive(p, s);
    SoundCov(e);
    PredictedCovSound(p, e.st, s);
    hide PredictedCov, MeasVar;
    var c := PredictedCov(p, e.st, s);
    assert c.oo == 0.0 && c.oo * c.dd == 0.0;
    ZeroSquare(c.od);
  }

  /** Once there are no numbers there never are any again. */
  function After(p: Params, e: Estimate, ss: seq<Sample>): (r: Estimate)
    ensures e.NotANumber? ==> r.NotANumber?
    decreases |ss|
  {
    if ss == [] then e else After(p, Next(p, e, ss[0]), ss[1..])
  }

  function LastUpdate(e: Estimate): int { if e.Known? then e.st.lastUpdate else e.lastUpdate }

  /** Numbers or not, the filter keeps the time of the last sample it accepted. */
  lemma {:induction false} AfterTime(p: Params, e: Estimate, ss: seq<Sample>)
    ensures var acc := Accepted(LastUpdate(e), ss);
      LastUpdate(After(p, e, ss)) == if acc == [] then LastUpdate(e) else acc[|acc| - 1].time
    decreases |ss|
  {
    if ss == [] {
    } else {
      var n := Next(p, e, ss[0]);
      NextTime(p, e, ss[0]);
      if ss[0].time > LastUpdate(e) { AcceptedFirst(LastUpdate(e), ss); } else { AcceptedSkip(LastUpdate(e), ss); }
      assert After(p, e, ss) == After(p, n, ss[1..]);
      hide Next, LastUpdate, After, Accepted;
      AfterTime(p, n, ss[1..]);
      LastOfTail(Accepted(LastUpdate(e), ss));
    }
  }

  lemma AcceptedSkip(last: int, ss: seq<Sample>)
    requires ss != [] && ss[0].time <= last
    ensures Accepted(last, ss) == Accepted(last, ss[1..])
  {
  }

  lemma NextTime(p: Params, e: Estimate, s: Sample)
    ensures LastUpdate(Next(p, e, s)) == if s.time > LastUpdate(e) then s.time else LastUpdate(e)
  {
    hide PredictedCov, MeasVar, Residual, PredictedOffset, Gain, WithGains, Significant;
  }

  /** A run ends in numbers exactly if no update of it divides by zero. */
  lemma {:induction false} AfterIs(p: Params, st: State, ss: seq<Sample>)
    ensures After(p, Known(st), ss).Known? <==> RunDefined(p, st, ss)
    ensures RunDefined(p, st, ss) ==> After(p, Known(st), ss) == Known(Run(p, st, ss))
    decreases |ss|
  {
    if ss != [] && Defined(p, st, ss[0]) {
      AfterIs(p, Step(p, st, ss[0]), ss[1..]);
    }
  }

  // ---------------------------------------------------------------- conversions

  function EffectiveDrift(st: State): real { if st.useDrift then st.drift else 0.0 }

  function Extrapolate(o: real, e: real, dt: real): real { o + e * dt }

  function ServerTime(st: State, clientTime: int): int {
    clientTime + Round(Extrapolate(st.offset, EffectiveDrift(st), (clientTime - st.lastUpdate) as real))
  }

  /** The client time at which a server clock o + e*(t - l) ahead shows s, before rounding. */
  function Invert(o: real, e: real, l: real, s: real): real
    requires e != -1.0
  {
    (s - o + e * l) / (1.0 + e)
  }

  function ClientTime(st: State, serverTime: int): int
    requires EffectiveDrift(st) != -1.0
  {
    Round(Invert(st.offset, EffectiveDrift(st), st.lastUpdate as real, serverTime as real))
  }

  function FromClient(e: Estimate, clientTime: int, platform: int): int {
    if e.NotANumber? then clientTime + platform else ServerTime(e.st, clientTime)
  }

  function FromServer(e: Estimate, serverTime: int, platform: int): int {
    if e.NotANumber? || EffectiveDrift(e.st) == -1.0 then platform else ClientTime(e.st, serverTime)
  }

  /** In the best of numbers, to the nearest. */
  function Variance(e: Estimate): (v: int)
    ensures e.Known? && !e.st.offsetUnknown ==> -0.5 <= v as real - e.st.cov.oo <= 0.5
  {
    if e.NotANumber? || e.st.offsetUnknown then MAX_INT64 else Round(e.st.cov.oo)
  }

  /** The offset variance one accepted sample leaves. */
  lemma StepVariance(p: Params, st: State, s: Sample)
    requires WellFormed(p) && Inv(p, st) && s.maxError != 0 && !Stale(st, s)
    ensures Defined(p, st, s) && Inv(p, Step(p, st, s))
    ensures !Step(p, st, s).offsetUnknown && 0.0 < Step(p, st, s).cov.oo <= MeasVar(p, s)
  {
    StepInv(p, st, s);
    MeasVarPositive(p, s);
    if st.count >= 2 { KalmanUncertainty(p, st, s); }
    hide PredictedCov, MeasVar, Det, Correct, Residual, PredictedOffset, Significant;
  }

  /**
   After any run whose accepted samples have nonzero errors, forgetting included, the reported variance is at most the
   error variance of the last of them.
   */
  lemma VarianceBound(p: Params, ss: seq<Sample>)
    requires WellFormed(p) && ErrorsNonzero(Accepted(0, ss))
    ensures var acc := Accepted(0, ss); var e := After(p, Known(FRESH), ss);
      if acc == [] then Variance(e) == MAX_INT64 else 0 <= Variance(e) <= Round(MeasVar(p, acc[|acc| - 1]))
  {
    RunInv(p, FRESH, ss);
    AfterIs(p, FRESH, ss);
    OffsetVarianceBound(p, FRESH, ss);
    var acc, st := Accepted(0, ss), Run(p, FRESH, ss);
    hide MeasVar, Run, RunDefined, After, Accepted;
    if acc != [] {
      RoundMonotone(0.0, st.cov.oo);
      RoundMonotone(st.cov.oo, MeasVar(p, acc[|acc| - 1]));
    }
  }

  lemma LastOfTail(acc: seq<Sample>)
    ensures |acc| > 1 ==> acc[1..][|acc[1..]| - 1] == acc[|acc| - 1]
  {
  }

  lemma {:induction false} OffsetVarianceBound(p: Params, st: State, ss: seq<Sample>)
    requires WellFormed(p) && Inv(p, st) && ErrorsNonzero(Accepted(st.lastUpdate, ss))
    ensures RunDefined(p, st, ss)
    ensures var acc := Accepted(st.lastUpdate, ss); var n := Run(p, st, ss);
      if acc == [] then n == st else !n.offsetUnknown && 0.0 < n.cov.oo <= MeasVar(p, acc[|acc| - 1])
    decreases |ss|
  {
    if ss == [] {
    } else {
      var s := ss[0];
      if Stale(st, s) {
        OffsetVarianceBound(p, st, ss[1..]);
      } else {
        AcceptedFirst(st.lastUpdate, ss);
        assert Accepted(st.lastUpdate, ss)[0] == s;
        StepVariance(p, st, s);
        StepTime(p, st, s);
        RunOne(p, st, ss);
        hide Step, MeasVar, Inv, Defined, Run, RunDefined, Accepted;
        OffsetVarianceBound(p, Step(p, st, s), ss[1..]);
        LastOfTail(Accepted(st.lastUpdate, ss));
      }
    }
  }

  // ---------------------------------------------------------------- the object

  class TimeFilter {
    const params: Params

    var lastUpdate: int
    var offset: real
    var drift: real
    var offsetUnknown: bool
    var offsetCovariance: real
    var offsetDriftCovariance: real
    var driftCovariance: real
    var useDrift: bool
    var count: uint8
    var nan: bool  // offset, drift and the covariances are NaN; the real fields are then not read

    ghost function View(): State
      reads this
    {
      State(lastUpdate, offset, drift, offsetUnknown,
            Cov(offsetCovariance, offsetDriftCovariance, driftCovariance), useDrift, count)
    }

    ghost function Holds(): Estimate
      reads this
    {
      if nan then NotANumber(lastUpdate, count) else Known(View())
    }

    ghost predicate Valid()
      reads this
    {
      Nonnegative(params) && Sound(Holds()) && (nan ==> !useDrift)
    }

    constructor (cfg: Config)
      ensures Valid() && params == FromConfig(cfg) && Holds() == Known(FRESH)
    {
      params := FromConfig(cfg);
      lastUpdate, offset, drift, offsetUnknown := 0, 0.0, 0.0, true;
      offsetCovariance, offsetDriftCovariance, driftCovariance := 0.0, 0.0, 0.0;
      useDrift, count, nan := false, 0, false;
    }

    method Reset()
      requires Valid()
      modifies this
      ensures Valid() && Holds() == Known(FRESH)
    {
      hide Sound;
      FreshSound();
      nan := false;
      count := 0;
      offset := 0.0;
      drift := 0.0;
      offsetUnknown := true;
      offsetCovariance := 0.0;
      offsetDriftCovariance := 0.0;
      driftCovariance := 0.0;
      lastUpdate := 0;
      useDrift := false;
    }

    /** The estimate changes as Next says; KalmanBlend, UniqueMinimiser and TracksLine say what that means. */
    method Update(measurement: int, maxError: int, timeAdded: int)
      requires Valid()
      modifies this
      ensures Valid() && Holds() == Next(params, old(Holds()), Sample(measurement, maxError, timeAdded))
    {
      ghost var e, before, s := Holds(), View(), Sample(measurement, maxError, timeAdded);
      NextSound(params, e, s);
      SoundCount(e);
      hide Sound, Next, Step, MeasVar, Dt, AfterFirst, AfterSecond;
      StaleNext(params, e, s);
      if timeAdded <= lastUpdate { return; }

      if count < 2 { EarlySteps(params, before, s); }
      var dt := Elapsed(timeAdded, s);
      lastUpdate := timeAdded;
      var measVar := ErrorVariance(maxError, s);

      EarlyTime(before, timeAdded, timeAdded, measurement as real, dt, measVar);
      if count == 0 {
        FirstSample(measurement, measVar);
      } else if count == 1 {
        SecondSample(measurement, dt, measVar);
      } else {
        PredictAndCorrect(measurement, maxError, dt, measVar, before, s);
      }
    }

    method Elapsed(timeAdded: int, ghost s: Sample) returns (dt: real)
      requires s.time == timeAdded && lastUpdate < timeAdded
      ensures dt == Dt(View(), s) && dt != 0.0
    {
      dt := (timeAdded - lastUpdate) as real;
    }

    method ErrorVariance(maxError: int, ghost s: Sample) returns (measVar: real)
      requires s.maxError == maxError
      ensures measVar == MeasVar(params, s)
    {
      var updateStdDev := maxError as real * params.maxErrorScale;
      measVar := updateStdDev * updateStdDev;
    }

    method FirstSample(measurement: int, measVar: real)
      requires count == 0
      modifies this`count, this`offset, this`offsetUnknown, this`offsetCovariance, this`drift
      ensures View() == AfterFirst(old(View()), lastUpdate, measurement as real, measVar)
    {
      count := count + 1;
      offset := measurement as real;
      offsetUnknown := false;
      offsetCovariance := measVar;
      drift := 0.0;
    }

    method SecondSample(measurement: int, dt: real, measVar: real)
      requires count == 1 && dt != 0.0
      modifies this`count, this`drift, this`offset, this`offsetUnknown, this`driftCovariance, this`offsetCovariance
      ensures View() == AfterSecond(old(View()), lastUpdate, measurement as real, dt, measVar)
    {
      NonZeroProduct(dt, dt);
      count := count + 1;
      drift := (measurement as real - offset) / dt;
      offset := measurement as real;
      offsetUnknown := false;
      driftCovariance := (offsetCovariance + measVar) / (dt * dt);
      offsetCovariance := measVar;
    }

    /** Update from the third sample on; lastUpdate has been written already. */
    method PredictAndCorrect(measurement: int, maxError: int, dt: real, measVar: real, ghost before: State,
                             ghost s: Sample)
      requires View() == before.(lastUpdate := s.time) && s.measurement == measurement && s.maxError == maxError
      requires dt == Dt(before, s) && measVar == MeasVar(params, s) && count >= 2 && !Stale(before, s)
      requires nan ==> !useDrift
      modifies this
      ensures Holds() ==
        Next(params, if old(nan) then NotANumber(before.lastUpdate, before.count) else Known(before), s)
      ensures nan ==> !useDrift
    {
      hide PredictedCov, Residual, PredictedOffset, Corrected, MeasVar, Dt, Step;
      if nan {
        CountSample();
        return;
      }
      NextForm(params, before, s);
      hide Next;
      var predOffset, residual, newOffsetCov, newOffsetDriftCov, newDriftCov :=
        PredictionPhase(measurement, maxError, dt, before, s);
      if newOffsetCov + measVar == 0.0 {
        nan, useDrift := true, false;
      } else {
        KalmanUpdate(predOffset, residual, newOffsetCov, newOffsetDriftCov, newDriftCov, measVar);
      }
    }

    /** All that forgetting does when every number is NaN: the outlier test fails. */
    method CountSample()
      modifies this`count
      ensures count == Counted(params, old(count))
    {
      if count < params.minSamples { count := count + 1; }
    }

    /** The prediction and forgetting phases of Update; lastUpdate has been written already. */
    method PredictionPhase(measurement: int, maxError: int, dt: real, ghost before: State, ghost s: Sample)
      returns (predOffset: real, residual: real, newOffsetCov: real, newOffsetDriftCov: real, newDriftCov: real)
      requires View() == before.(lastUpdate := s.time) && s.measurement == measurement && s.maxError == maxError
      requires dt == Dt(before, s)
      modifies this`count
      ensures count == Counted(params, before.count)
      ensures predOffset == PredictedOffset(before, s) && residual == Residual(before, s)
      ensures Cov(newOffsetCov, newOffsetDriftCov, newDriftCov) == PredictedCov(params, before, s)
    {
      hide PredictedCov, Residual, Forgets, PredictedOffset, Dt;
      predOffset := offset + drift * dt;

      var driftProcVar := dt * params.driftProcessVariance;
      newDriftCov := driftCovariance + driftProcVar;
      newOffsetDriftCov := offsetDriftCovariance + driftCovariance * dt;
      var offsetProcVar := dt * params.processVariance;
      newOffsetCov :=
        offsetCovariance + 2.0 * offsetDriftCovariance * dt + driftCovariance * (dt * dt) + offsetProcVar;

      residual := measurement as real - predOffset;
      var cutoff := maxError as real * params.adaptiveForgettingCutoff;
      ResidualForm(params, before, s, dt, predOffset, residual, cutoff);
      PredictedCovForm(params, before, s, dt, newOffsetCov, newOffsetDriftCov, newDriftCov);

      if count < params.minSamples {
        count := count + 1;
      } else if Abs(residual) > cutoff {
        newDriftCov := newDriftCov * params.forgetVarianceFactor;
        newOffsetDriftCov := newOffsetDriftCov * params.forgetVarianceFactor;
        newOffsetCov := newOffsetCov * params.forgetVarianceFactor;
      }
    }

    /** The last phase of Update. */
    method KalmanUpdate(predOffset: real, residual: real, newOffsetCov: real, newOffsetDriftCov: real,
                        newDriftCov: real, measVar: real)
      requires newOffsetCov + measVar != 0.0
      modifies this
      ensures View() == Corrected(params, old(View()), predOffset, residual,
                                  Cov(newOffsetCov, newOffsetDriftCov, newDriftCov), measVar)
      ensures nan == old(nan)
    {
      hide Gained;
      var invS := 1.0 / (newOffsetCov + measVar);
      var offsetGain := newOffsetCov * invS;
      var driftGain := newOffsetDriftCov * invS;
      assert offsetGain == Gain(newOffsetCov, newOffsetCov + measVar);
      assert driftGain == Gain(newOffsetDriftCov, newOffsetCov + measVar);
      hide Gain;
      ApplyGains(predOffset, residual, newOffsetCov, newOffsetDriftCov, newDriftCov, offsetGain, driftGain);
    }

    method ApplyGains(predOffset: real, residual: real, newOffsetCov: real, newOffsetDriftCov: real, newDriftCov: real,
                      offsetGain: real, driftGain: real)
      modifies this
      ensures View() == Gained(params, old(View()), predOffset, residual,
                               Cov(newOffsetCov, newOffsetDriftCov, newDriftCov), offsetGain, driftGain)
      ensures nan == old(nan)
    {
      offset := predOffset + offsetGain * residual;
      drift := drift + driftGain * residual;

      driftCovariance := newDriftCov - driftGain * newOffsetDriftCov;
      offsetDriftCovariance := newOffsetDriftCov - driftGain * newOffsetCov;
      offsetCovariance := newOffsetCov - offsetGain * newOffsetCov;

      var driftSq := drift * drift;
      useDrift := driftSq > params.driftSignificanceThresholdSq * driftCovariance;
    }

    /** `platform` is what the machine makes of a number it cannot represent as an int64. */
    method ComputeServerTime(clientTime: int, platform: int) returns (serverTime: int)
      ensures serverTime == FromClient(Holds(), clientTime, platform)
    {
      if nan { return clientTime + platform; }
      var dt := (clientTime - lastUpdate) as real;
      var effectiveDrift := 0.0;
      if useDrift { effectiveDrift := drift; }
      serverTime := clientTime + Round(Extrapolate(offset, effectiveDrift, dt));
    }

    /** An effective drift of -1 divides by zero; the quotient is infinite or NaN. */
    method ComputeClientTime(serverTime: int, platform: int) returns (clientTime: int)
      ensures clientTime == FromServer(Holds(), serverTime, platform)
    {
      if nan { return platform; }
      var effectiveDrift := 0.0;
      if useDrift { effectiveDrift := drift; }
      if 1.0 + effectiveDrift == 0.0 { return platform; }
      clientTime := Round(Invert(offset, effectiveDrift, lastUpdate as real, serverTime as real));
    }

    /** The offset variance in whole square microseconds; the largest int64 if it is infinite or NaN. */
    method GetCovariance() returns (v: int)
      ensures v == Variance(Holds())
    {
      v := if nan || offsetUnknown then MAX_INT64 else Round(offsetCovariance);
    }

    method Synced() returns (b: bool)
      ensures b <==> count > 0
    {
      b := count > 0;
    }
  }
}
