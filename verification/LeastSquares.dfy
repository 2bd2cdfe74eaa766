/**
 Without process noise the filter is a batch estimator: at every moment it holds the unique minimiser,
 over all lines A + B*t, of a weighted sum of squared errors. Adaptive forgetting discounts the sum.
 */
module LeastSquares {
  import opened Numbers
  import opened Kalman
  import opened TimeFilters

  function Line(A: real, B: real, t: real): real { A + B * t }

  /** How far the line A + B*t is from the estimate, in units of the estimate's own uncertainty. */
  function LineCost(st: State, A: real, B: real): real
    requires Det(st.cov) != 0.0
  {
    Cost(st.cov, Line(A, B, st.lastUpdate as real) - st.offset, B - st.drift)
  }

  function SquaredError(p: Params, s: Sample, A: real, B: real): real
    requires MeasVar(p, s) != 0.0
  {
    Loss(s.measurement as real - Line(A, B, s.time as real), MeasVar(p, s))
  }

  predicate Noiseless(p: Params) { WellFormed(p) && p.processVariance == 0.0 && p.driftProcessVariance == 0.0 }

  /** A state past its second sample, ready for Kalman steps. */
  predicate Tracking(st: State) { st.count >= 2 && PD(st.cov) }

  lemma StepTracking(p: Params, st: State, s: Sample)
    requires WellFormed(p) && Tracking(st) && s.maxError != 0
    ensures Defined(p, st, s) && Tracking(Step(p, st, s)) && MeasVar(p, s) > 0.0
    ensures !Stale(st, s) ==> InnovationVar(p, st, s) > 0.0
  {
    MeasVarPositive(p, s);
    if !Stale(st, s) {
      PredictedCovPSD(p, st, s);
      CorrectPSD(PredictedCov(p, st, s), MeasVar(p, s));
    }
  }

  /**
   The cost of a line after a run, accumulated sample by sample from `base`: an accepted sample divides
   what was there by the inflation it triggered and adds its own weighted squared error.
   */
  ghost function Objective(p: Params, st: State, ss: seq<Sample>, base: real, A: real, B: real): real
    requires Noiseless(p) && Tracking(st) && ErrorsNonzero(ss)
    decreases |ss|
  {
    if ss == [] then base
    else
      var s := ss[0];
      StepTracking(p, st, s);
      var next := if Stale(st, s) then base else base / Inflation(p, st, s) + SquaredError(p, s, A, B);
      Objective(p, Step(p, st, s), ss[1..], next, A, B)
  }

  /** The part of the objective that no choice of line can avoid. */
  ghost function Floor(p: Params, st: State, ss: seq<Sample>, base: real): real
    requires WellFormed(p) && Tracking(st) && ErrorsNonzero(ss)
    decreases |ss|
  {
    if ss == [] then base
    else
      var s := ss[0];
      StepTracking(p, st, s);
      var next := if Stale(st, s) then base
        else base / Inflation(p, st, s) + Loss(Residual(st, s), InnovationVar(p, st, s));
      Floor(p, Step(p, st, s), ss[1..], next)
  }

  /** Prediction and inflation: the line's cost is carried to the new time and discounted. */
  lemma PredictLine(p: Params, st: State, s: Sample, A: real, B: real)
    requires Noiseless(p) && Tracking(st) && !Stale(st, s)
    ensures PD(PredictedCov(p, st, s))
    ensures LineCost(st, A, B) / Inflation(p, st, s)
         == Cost(PredictedCov(p, st, s), Line(A, B, s.time as real) - PredictedOffset(st, s), B - st.drift)
  {
    var dt := Dt(st, s);
    var u, v := Line(A, B, st.lastUpdate as real) - st.offset, B - st.drift;
    hide Cost, Predict, Scale, Det, Line;
    PredictedCovPSD(p, st, s);
    PredictNoiseless(st.cov, dt, p);
    PredictCost(st.cov, dt, u, v);
    ScaleCost(Predict(st.cov, dt, 0.0, 0.0), Inflation(p, st, s), u + v * dt, v);
    LineAt(A, B, st.lastUpdate as real, s.time as real, dt, st.offset, st.drift, u, v);
    var x := Line(A, B, s.time as real) - PredictedOffset(st, s);
    assert x == u + v * dt;
    assert LineCost(st, A, B) == Cost(st.cov, u, v);
  }

  /** Correction: the new error joins the cost, which is re-centred on the new estimate. */
  lemma CorrectLine(p: Params, st: State, s: Sample, A: real, B: real)
    requires WellFormed(p) && Tracking(st) && !Stale(st, s) && s.maxError != 0 && PD(PredictedCov(p, st, s))
    ensures Defined(p, st, s) && Tracking(Step(p, st, s)) && MeasVar(p, s) > 0.0 && InnovationVar(p, st, s) > 0.0
    ensures Cost(PredictedCov(p, st, s), Line(A, B, s.time as real) - PredictedOffset(st, s), B - st.drift)
              + SquaredError(p, s, A, B)
         == LineCost(Step(p, st, s), A, B) + Loss(Residual(st, s), InnovationVar(p, st, s))
  {
    hide Cost, Correct, Det, Line, Loss, PredictedCov, MeasVar, Residual, PredictedOffset, Step, Gain, PD;
    StepTracking(p, st, s);
    StepKalman(p, st, s);
    var c, r, z := PredictedCov(p, st, s), MeasVar(p, s), Residual(st, s);
    var w := GainForms(c.oo, c.od, c.oo + r, z);
    var u, v := Line(A, B, s.time as real) - PredictedOffset(st, s), B - st.drift;
    var n := Step(p, st, s);
    CorrectCost(c, r, w, z, u, v);
    var u', v' := u - c.oo * w, v - c.od * w;
    assert Line(A, B, n.lastUpdate as real) - n.offset == u';
    assert B - n.drift == v';
    assert LineCost(n, A, B) == Cost(Correct(c, r), u', v');
    ResidualIs(st, s);
    assert z - u == s.measurement as real - Line(A, B, s.time as real);
  }

  lemma ResidualIs(st: State, s: Sample)
    ensures Residual(st, s) == s.measurement as real - PredictedOffset(st, s)
  {
  }

  /** One accepted sample: discounted cost plus squared error is the new cost plus a constant. */
  lemma StepCost(p: Params, st: State, s: Sample, A: real, B: real)
    requires Noiseless(p) && Tracking(st) && s.maxError != 0 && !Stale(st, s)
    ensures Defined(p, st, s) && Tracking(Step(p, st, s)) && MeasVar(p, s) > 0.0 && InnovationVar(p, st, s) > 0.0
    ensures LineCost(st, A, B) / Inflation(p, st, s) + SquaredError(p, s, A, B)
         == LineCost(Step(p, st, s), A, B) + Loss(Residual(st, s), InnovationVar(p, st, s))
  {
    PredictLine(p, st, s, A, B);
    CorrectLine(p, st, s, A, B);
  }

  lemma PredictNoiseless(c: Cov, dt: real, p: Params)
    requires Noiseless(p)
    ensures Predict(c, dt, p.processVariance, p.driftProcessVariance) == Predict(c, dt, 0.0, 0.0)
  {
  }

  lemma LineAt(A: real, B: real, l: real, t: real, dt: real, o: real, d: real, u: real, v: real)
    requires dt == t - l && u == Line(A, B, l) - o && v == B - d
    ensures u + v * dt == Line(A, B, t) - (o + d * dt)
  {
    assert B * l + B * dt == B * t;
    assert v * dt == B * dt - d * dt;
  }

  lemma GainForms(a: real, b: real, s: real, z: real) returns (w: real)
    requires s != 0.0
    ensures Gain(a, s) * z == a * w && Gain(b, s) * z == b * w && w * s == z
  {
    var i := 1.0 / s;
    w := i * z;
    assert i * s == 1.0;
    assert w * s == z * (i * s);
  }

  /** Over a whole run, with stale samples and forgetting anywhere in it. */
  lemma {:induction false} RunCost(p: Params, st: State, ss: seq<Sample>, k: real, A: real, B: real)
    requires Noiseless(p) && Tracking(st) && ErrorsNonzero(ss)
    ensures RunDefined(p, st, ss) && Tracking(Run(p, st, ss))
    ensures Objective(p, st, ss, LineCost(st, A, B) + k, A, B)
         == LineCost(Run(p, st, ss), A, B) + Floor(p, st, ss, k)
    decreases |ss|
  {
    if ss == [] {
    } else {
      var s := ss[0];
      StepTracking(p, st, s);
      if Stale(st, s) {
        RunCost(p, st, ss[1..], k, A, B);
      } else {
        StepCost(p, st, s, A, B);
        hide LineCost, SquaredError, Loss, Step, Inflation;
        var f, c := Inflation(p, st, s), LineCost(st, A, B);
        var e, w := SquaredError(p, s, A, B), Loss(Residual(st, s), InnovationVar(p, st, s));
        AddConstant(c, k, f, e, LineCost(Step(p, st, s), A, B), w);
        RunCost(p, Step(p, st, s), ss[1..], k / f + w, A, B);
      }
    }
  }

  lemma AddConstant(c: real, k: real, f: real, e: real, c': real, w: real)
    requires f != 0.0 && c / f + e == c' + w
    ensures (c + k) / f + e == c' + (k / f + w)
  {
    var x, y := c / f, k / f;
    assert x * f == c && y * f == k;
    var q := (c + k) / f;
    assert q * f == (x + y) * f;
    CancelRight(q, x + y, f);
  }

  /** The filter's own line, read off after the run. */
  function LineOffset(st: State): real { st.offset - st.drift * st.lastUpdate as real }

  lemma OwnLineCost(st: State, A: real, B: real)
    requires Tracking(st)
    ensures LineCost(st, LineOffset(st), st.drift) == 0.0
    ensures LineCost(st, A, B) >= 0.0
    ensures LineCost(st, A, B) == 0.0 <==> A == LineOffset(st) && B == st.drift
  {
    var u := Line(A, B, st.lastUpdate as real) - st.offset;
    CostPositive(st.cov, u, B - st.drift);
    CostPositive(st.cov, 0.0, 0.0);
    var u0 := Line(LineOffset(st), st.drift, st.lastUpdate as real) - st.offset;
    assert u0 == 0.0;
    assert B == st.drift ==> u == A - LineOffset(st);
  }

  /** Main result: every other line costs strictly more than the filter's. */
  lemma UniqueMinimiser(p: Params, st: State, ss: seq<Sample>, A: real, B: real)
    requires Noiseless(p) && Tracking(st) && ErrorsNonzero(ss)
    ensures RunDefined(p, st, ss)
    ensures var n := Run(p, st, ss); var A', B' := LineOffset(n), n.drift;
      var best := Objective(p, st, ss, LineCost(st, A', B'), A', B');
      (A != A' || B != B') ==> Objective(p, st, ss, LineCost(st, A, B), A, B) > best
  {
    RunCost(p, st, ss, 0.0, A, B);
    var n := Run(p, st, ss);
    RunCost(p, st, ss, 0.0, LineOffset(n), n.drift);
    OwnLineCost(n, A, B);
  }

  // ---------------------------------------------------------------- the plain sum

  /** No sample of the run triggers an inflation; the first two never do. */
  ghost predicate NeverForgets(p: Params, st: State, ss: seq<Sample>)
    decreases |ss|
  {
    ss == [] || (
      if Stale(st, ss[0]) then NeverForgets(p, st, ss[1..])
      else
        && (st.count >= 2 ==> !Forgets(p, st, ss[0]))
        && (Defined(p, st, ss[0]) ==> NeverForgets(p, Step(p, st, ss[0]), ss[1..])))
  }

  ghost function SumOfSquares(p: Params, ss: seq<Sample>, A: real, B: real): real
    requires WellFormed(p) && ErrorsNonzero(ss)
  {
    if ss == [] then 0.0
    else
      MeasVarPositive(p, ss[0]);
      SquaredError(p, ss[0], A, B) + SumOfSquares(p, ss[1..], A, B)
  }

  lemma {:induction false} PlainObjective(p: Params, st: State, ss: seq<Sample>, base: real, A: real, B: real)
    requires Noiseless(p) && Tracking(st) && ErrorsNonzero(ss) && NeverForgets(p, st, ss)
    ensures Objective(p, st, ss, base, A, B) == base + SumOfSquares(p, Accepted(st.lastUpdate, ss), A, B)
    decreases |ss|
  {
    if ss == [] {
    } else {
      var s := ss[0];
      StepTracking(p, st, s);
      if Stale(st, s) {
        PlainObjective(p, st, ss[1..], base, A, B);
      } else {
        var rest := Accepted(s.time, ss[1..]);
        assert Accepted(st.lastUpdate, ss)[1..] == rest;
        PlainObjective(p, Step(p, st, s), ss[1..], base / 1.0 + SquaredError(p, s, A, B), A, B);
      }
    }
  }

  /** The state two accepted samples leave behind. */
  function SecondState(p: Params, s1: Sample, s2: Sample): State
    requires 0 < s1.time < s2.time
  {
    Step(p, Step(p, FRESH, s1), s2)
  }

  /** The prior fixed at sample two: two independent errors, one in the offset and one in the slope. */
  lemma SecondPrior(p: Params, s1: Sample, s2: Sample, A: real, B: real)
    requires WellFormed(p) && 0 < s1.time < s2.time && s1.maxError != 0 && s2.maxError != 0
    ensures var st := SecondState(p, s1, s2); var dt := (s2.time - s1.time) as real;
      var r, d := MeasVar(p, s2), SlopeVariance(p, s1, s2);
      var slope := (s2.measurement - s1.measurement) as real / dt;
      var u, v := Line(A, B, s2.time as real) - s2.measurement as real, B - slope;
      Tracking(st) && r > 0.0 && d > 0.0 && LineCost(st, A, B) == u * u / r + v * v / d
  {
    SecondStateIs(p, s1, s2);
    var st, dt := SecondState(p, s1, s2), (s2.time - s1.time) as real;
    var u := Line(A, B, s2.time as real) - s2.measurement as real;
    var v := B - (s2.measurement - s1.measurement) as real / dt;
    LineCostForm(st, A, B, u, v);
    hide SlopeVariance, MeasVar, SecondState, Cost, Line, PD, Det, LineCost;
    DiagonalCost(st.cov, u, v, MeasVar(p, s2), SlopeVariance(p, s1, s2));
  }

  lemma LineCostForm(st: State, A: real, B: real, u: real, v: real)
    requires Tracking(st) && u == Line(A, B, st.lastUpdate as real) - st.offset && v == B - st.drift
    ensures LineCost(st, A, B) == Cost(st.cov, u, v)
  {
    hide Cost, Line;
  }

  /** The variance of the slope between two samples. */
  function SlopeVariance(p: Params, s1: Sample, s2: Sample): real
    requires s1.time < s2.time
  {
    var dt := (s2.time - s1.time) as real;
    NonZeroProduct(dt, dt);
    (MeasVar(p, s1) + MeasVar(p, s2)) / (dt * dt)
  }

  lemma SlopeVarianceIs(p: Params, s1: Sample, s2: Sample)
    requires s1.time < s2.time
    ensures var dt := (s2.time - s1.time) as real;
      SlopeVariance(p, s1, s2) * (dt * dt) == MeasVar(p, s1) + MeasVar(p, s2)
  {
    hide MeasVar;
    var dt := (s2.time - s1.time) as real;
    NonZeroProduct(dt, dt);
  }

  lemma SecondStateIs(p: Params, s1: Sample, s2: Sample)
    requires WellFormed(p) && 0 < s1.time < s2.time && s1.maxError != 0 && s2.maxError != 0
    ensures var st := SecondState(p, s1, s2); var dt := (s2.time - s1.time) as real;
      && st.cov.oo == MeasVar(p, s2) > 0.0 && st.cov.od == 0.0
      && st.cov.dd == SlopeVariance(p, s1, s2) > 0.0
      && st.offset == s2.measurement as real && st.drift == (s2.measurement - s1.measurement) as real / dt
      && st.lastUpdate == s2.time && Tracking(st)
  {
    StepInv(p, FRESH, s1);
    StepInv(p, Step(p, FRESH, s1), s2);
    MeasVarPositive(p, s1); MeasVarPositive(p, s2);
    hide MeasVar;
  }

  /** How far the line's rise between two samples is from the measured one. */
  function SlopeError(s1: Sample, s2: Sample, B: real): real {
    B * (s2.time - s1.time) as real - (s2.measurement - s1.measurement) as real
  }

  /** The same prior as squared errors: the second sample's, and the slope's with the variance of both samples. */
  lemma SecondPriorTerms(p: Params, s1: Sample, s2: Sample, A: real, B: real)
    requires WellFormed(p) && 0 < s1.time < s2.time && s1.maxError != 0 && s2.maxError != 0
    ensures Tracking(SecondState(p, s1, s2)) && MeasVar(p, s1) > 0.0 && MeasVar(p, s2) > 0.0
    ensures LineCost(SecondState(p, s1, s2), A, B) ==
      SquaredError(p, s2, A, B) + Loss(SlopeError(s1, s2, B), MeasVar(p, s1) + MeasVar(p, s2))
  {
    hide Line, MeasVar, Loss, LineCost, SecondState;
    SecondPrior(p, s1, s2, A, B);
    MeasVarPositive(p, s1); MeasVarPositive(p, s2);
    var u := Line(A, B, s2.time as real) - s2.measurement as real;
    SlopeVarianceIs(p, s1, s2);
    hide SlopeVariance;
    PriorTerms(u, B, MeasVar(p, s2), MeasVar(p, s1) + MeasVar(p, s2), SlopeVariance(p, s1, s2),
               (s2.time - s1.time) as real, (s2.measurement - s1.measurement) as real, -u, SlopeError(s1, s2, B));
    hide SlopeError;
    assert s2.measurement as real - Line(A, B, s2.time as real) == -u;
  }

  lemma PriorTerms(u: real, B: real, r: real, r': real, d: real, dt: real, m: real, e: real, f: real)
    requires r > 0.0 && r' > 0.0 && dt > 0.0 && d > 0.0 && d * (dt * dt) == r' && e == -u && f == B * dt - m
    ensures u * u / r + (B - m / dt) * (B - m / dt) / d == Loss(e, r) + Loss(f, r')
  {
    var q := m / dt;
    assert q * dt == m;
    var v := B - q;
    assert v * dt == f;
    SlopeTerm(v, dt, d, r', f);
    LossEven(u, r);
  }

  /**
   A fit of the first two samples would have the first sample's error where this prior has the slope's: the covariance
   set at sample two leaves out that offset and slope share the second measurement. On every line parallel to the two
   samples, other than the one through them, the prior is strictly too low.
   */
  lemma SecondPriorIsNotTheFit(p: Params, s1: Sample, s2: Sample, A: real, B: real)
    requires WellFormed(p) && 0 < s1.time < s2.time && s1.maxError != 0 && s2.maxError != 0
    requires B * (s2.time - s1.time) as real == (s2.measurement - s1.measurement) as real
    requires s2.measurement as real != Line(A, B, s2.time as real)
    ensures Tracking(SecondState(p, s1, s2)) && MeasVar(p, s1) > 0.0 && MeasVar(p, s2) > 0.0
    ensures LineCost(SecondState(p, s1, s2), A, B) < SquaredError(p, s1, A, B) + SquaredError(p, s2, A, B)
  {
    SecondPriorTerms(p, s1, s2, A, B);
    var u := Line(A, B, s2.time as real) - s2.measurement as real;
    LineStep(A, B, s1.time as real, s2.time as real, (s2.time - s1.time) as real);
    hide Line, MeasVar, Loss, LineCost, SecondState;
    assert SlopeError(s1, s2, B) == 0.0;
    LossEven(0.0, MeasVar(p, s1) + MeasVar(p, s2));
    assert s1.measurement as real - Line(A, B, s1.time as real) == -u;
    LossEven(u, MeasVar(p, s1));
  }

  lemma LineStep(A: real, B: real, l: real, t: real, dt: real)
    requires dt == t - l
    ensures Line(A, B, t) == Line(A, B, l) + B * dt
  {
    assert B * t == B * l + B * dt;
  }

  lemma Slope(x: real, B: real, dt: real)
    requires dt != 0.0 && x == B * dt
    ensures x / dt == B
  {
    CancelRight(x / dt, B, dt);
  }

  lemma LossEven(u: real, r: real)
    requires r > 0.0
    ensures Loss(-u, r) == Loss(u, r) == u * u / r
    ensures u == 0.0 ==> Loss(u, r) == 0.0
    ensures u != 0.0 ==> Loss(u, r) > 0.0
  {
    assert (-u) * (-u) == u * u;
    SqSign(u);
    Quotient(u * u, r);
    SignOf(u * u / r, r);
  }

  lemma SlopeTerm(v: real, dt: real, d: real, r: real, f: real)
    requires d > 0.0 && r > 0.0 && d * (dt * dt) == r && f == v * dt
    ensures v * v / d == Loss(f, r)
  {
    var x, y, g := v * v / d, Loss(f, r), dt * dt;
    assert x * d == v * v && y * r == f * f;
    assert f * f == (v * v) * g;
    assert x * r == (x * d) * g;
    CancelRight(x, y, r);
  }

  lemma DiagonalCost(c: Cov, u: real, v: real, r: real, d: real)
    requires PD(c) && c.od == 0.0 && c.oo == r && c.dd == d
    ensures r > 0.0 && d > 0.0 && Cost(c, u, v) == u * u / r + v * v / d
  {
    var x, y := u * u / r, v * v / d;
    assert x * r == u * u && y * d == v * v;
    assert Form(r, 0.0, d, u, v) == d * (x * r) + r * (y * d);
    assert Det(c) == r * d by { assert c.od * c.od == 0.0; }
    assert (x + y) * (r * d) == d * (x * r) + r * (y * d);
    CostIs(c, u, v, x + y);
  }

  /** Forgetting is not triggered by a skipped sample either. */
  lemma {:induction false} AcceptedForgets(p: Params, st: State, ss: seq<Sample>)
    requires NeverForgets(p, st, ss)
    ensures NeverForgets(p, st, Accepted(st.lastUpdate, ss))
    decreases |ss|
  {
    if ss == [] {
    } else {
      var s := ss[0];
      if Stale(st, s) {
        AcceptedForgets(p, st, ss[1..]);
      } else {
        AcceptedFirst(st.lastUpdate, ss);
        if Defined(p, st, s) {
          StepTime(p, st, s);
          hide Step, Defined, Forgets;
          AcceptedForgets(p, Step(p, st, s), ss[1..]);
        }
      }
    }
  }

  /**
   What the filter fits: the slope between the first two samples, with the variance of both, and every later error.
   */
  ghost function FitCost(p: Params, acc: seq<Sample>, A: real, B: real): real
    requires WellFormed(p) && ErrorsNonzero(acc) && |acc| >= 2 && 0 < acc[0].time < acc[1].time
  {
    var s1, s2 := acc[0], acc[1];
    MeasVarPositive(p, s1); MeasVarPositive(p, s2);
    Loss(SlopeError(s1, s2, B), MeasVar(p, s1) + MeasVar(p, s2)) + SumOfSquares(p, acc[1..], A, B)
  }

  lemma FitCostIs(p: Params, acc: seq<Sample>, A: real, B: real)
    requires WellFormed(p) && ErrorsNonzero(acc) && |acc| >= 2 && 0 < acc[0].time < acc[1].time
    ensures Tracking(SecondState(p, acc[0], acc[1])) && ErrorsNonzero(acc[2..])
    ensures FitCost(p, acc, A, B)
         == LineCost(SecondState(p, acc[0], acc[1]), A, B) + SumOfSquares(p, acc[2..], A, B)
  {
    SecondPriorTerms(p, acc[0], acc[1], A, B);
    FitCostForm(p, acc, A, B);
    hide *;
  }

  lemma FitCostForm(p: Params, acc: seq<Sample>, A: real, B: real)
    requires WellFormed(p) && ErrorsNonzero(acc) && |acc| >= 2 && 0 < acc[0].time < acc[1].time
    requires MeasVar(p, acc[0]) > 0.0 && MeasVar(p, acc[1]) > 0.0
    ensures ErrorsNonzero(acc[2..])
    ensures FitCost(p, acc, A, B) == Loss(SlopeError(acc[0], acc[1], B), MeasVar(p, acc[0]) + MeasVar(p, acc[1]))
        + (SquaredError(p, acc[1], A, B) + SumOfSquares(p, acc[2..], A, B))
  {
    hide SquaredError, Loss, MeasVar, SlopeError;
    assert acc[1..][0] == acc[1] && acc[1..][1..] == acc[2..];
  }

  /** Two steps of a run, taken out of it. */
  lemma RunFromSecond(p: Params, acc: seq<Sample>)
    requires WellFormed(p) && ErrorsNonzero(acc) && |acc| >= 2 && 0 < acc[0].time < acc[1].time
    requires RunDefined(p, FRESH, acc)
    ensures var st := SecondState(p, acc[0], acc[1]);
      && st.lastUpdate == acc[1].time && RunDefined(p, st, acc[2..]) && Run(p, st, acc[2..]) == Run(p, FRESH, acc)
      && (NeverForgets(p, FRESH, acc) ==> NeverForgets(p, st, acc[2..]))
  {
    assert acc[1..][1..] == acc[2..];
    var st := Step(p, FRESH, acc[0]);
    assert st.count == 1 && st.lastUpdate == acc[0].time;
    assert Step(p, st, acc[1]).lastUpdate == acc[1].time;
    RunFirst(p, FRESH, acc);
    RunFirst(p, st, acc[1..]);
    hide Step, Forgets, Run, RunDefined, NeverForgets;
  }

  lemma RunFirst(p: Params, st: State, ss: seq<Sample>)
    requires ss != [] && !Stale(st, ss[0]) && RunDefined(p, st, ss)
    ensures Defined(p, st, ss[0]) && RunDefined(p, Step(p, st, ss[0]), ss[1..])
    ensures Run(p, st, ss) == Run(p, Step(p, st, ss[0]), ss[1..])
    ensures NeverForgets(p, st, ss) ==> NeverForgets(p, Step(p, st, ss[0]), ss[1..])
  {
    hide Step, Forgets;
  }

  lemma AcceptedTail(last: int, acc: seq<Sample>)
    requires |acc| >= 2 && Accepted(last, acc) == acc
    ensures last < acc[0].time < acc[1].time && Accepted(acc[1].time, acc[2..]) == acc[2..]
  {
    var t := acc[1..];
    AcceptedHead(last, acc);
    AcceptedHead(acc[0].time, t);
    assert t[1..] == acc[2..];
  }

  lemma AcceptedHead(last: int, acc: seq<Sample>)
    requires acc != [] && Accepted(last, acc) == acc
    ensures last < acc[0].time && Accepted(acc[0].time, acc[1..]) == acc[1..]
  {
  }

  /** A state after its second accepted sample, as a run of samples that never triggers forgetting leaves it. */
  ghost predicate Fitted(p: Params, ss: seq<Sample>) {
    Noiseless(p) && ErrorsNonzero(Accepted(0, ss)) && |Accepted(0, ss)| >= 2 && NeverForgets(p, FRESH, ss)
  }

  /** What a line costs more than the filter's own is exactly its distance from the estimate. */
  lemma FitCentre(p: Params, ss: seq<Sample>, A: real, B: real)
    requires Fitted(p, ss)
    ensures RunDefined(p, FRESH, ss) && Tracking(Run(p, FRESH, ss))
    ensures var acc, n := Accepted(0, ss), Run(p, FRESH, ss);
      0 < acc[0].time < acc[1].time
      && FitCost(p, acc, A, B) == FitCost(p, acc, LineOffset(n), n.drift) + LineCost(n, A, B)
  {
    RunInv(p, FRESH, ss);
    AcceptedOnly(p, FRESH, ss);
    AcceptedForgets(p, FRESH, ss);
    var acc := Accepted(0, ss);
    AcceptedTail(0, acc);
    RunFromSecond(p, acc);
    hide Run, RunDefined, NeverForgets, SecondState, FitCost, LineCost, SumOfSquares, Accepted, LineOffset, Tracking,
      Inv;
    var st, later := SecondState(p, acc[0], acc[1]), acc[2..];
    FitCostIs(p, acc, A, B);
    var n := Run(p, st, later);
    FitCostIs(p, acc, LineOffset(n), n.drift);
    RunCentre(p, st, later, A, B);
  }

  lemma RunCentre(p: Params, st: State, ss: seq<Sample>, A: real, B: real)
    requires Noiseless(p) && Tracking(st) && ErrorsNonzero(ss) && NeverForgets(p, st, ss)
    requires Accepted(st.lastUpdate, ss) == ss
    ensures RunDefined(p, st, ss) && Tracking(Run(p, st, ss))
    ensures var n := Run(p, st, ss);
      LineCost(st, A, B) + SumOfSquares(p, ss, A, B)
        == LineCost(st, LineOffset(n), n.drift) + SumOfSquares(p, ss, LineOffset(n), n.drift) + LineCost(n, A, B)
  {
    hide Run, RunDefined, NeverForgets, LineCost, SumOfSquares, Objective, Accepted, Floor, LineOffset;
    RunCost(p, st, ss, 0.0, A, B);
    var n := Run(p, st, ss);
    RunCost(p, st, ss, 0.0, LineOffset(n), n.drift);
    OwnLineCost(n, A, B);
    PlainObjective(p, st, ss, LineCost(st, A, B), A, B);
    PlainObjective(p, st, ss, LineCost(st, LineOffset(n), n.drift), LineOffset(n), n.drift);
  }

  /**
   The theorem in the source's terms, over every run from a fresh filter in which forgetting never fires, stale
   timestamps anywhere: the filter's line fits the accepted samples better than every other line.
   */
  lemma LeastSquaresFit(p: Params, ss: seq<Sample>, A: real, B: real)
    requires Noiseless(p) && ErrorsNonzero(Accepted(0, ss)) && |Accepted(0, ss)| >= 2 && NeverForgets(p, FRESH, ss)
    ensures RunDefined(p, FRESH, ss)
    ensures var acc := Accepted(0, ss); var n := Run(p, FRESH, ss);
      && 0 < acc[0].time < acc[1].time
      && (A != LineOffset(n) || B != n.drift ==>
          FitCost(p, acc, A, B) > FitCost(p, acc, LineOffset(n), n.drift))
  {
    FitCentre(p, ss, A, B);
    hide FitCost, LineCost, Run, RunDefined, Accepted;
    OwnLineCost(Run(p, FRESH, ss), A, B);
  }
}
