/** What each setting of the filter's configuration does, in terms of the configuration itself. */
module FilterConfigs {
  import opened Numbers
  import opened Kalman
  import opened TimeFilters
  import opened LeastSquares
  import opened FilterRuns

  /** The recommended settings as parameters: drift noise 1e-22, a factor of 4, two standard deviations squared. */
  lemma DefaultParameters()
    ensures var p := FromConfig(DEFAULT_CONFIG);
      && p.processVariance == 0.0 && p.driftProcessVariance * 10000000000000000000000.0 == 1.0
      && p.forgetVarianceFactor == 4.0 && p.adaptiveForgettingCutoff == 3.0 && p.driftSignificanceThresholdSq == 4.0
      && p.maxErrorScale == 0.5 && p.minSamples == 100
  {
    assert 0.00000000001 * 0.00000000001 * 10000000000000000000000.0 == 1.0;
  }

  /** maxErrorScale makes a sample's error bound its standard deviation; the first variance reported is its square. */
  lemma FirstVariance(cfg: Config, s: Sample, k: real)
    requires s.time > 0 && k == if cfg.maxErrorScale > 0.0 then cfg.maxErrorScale else 1.0
    ensures var e := Next(FromConfig(cfg), Known(FRESH), s); var d := s.maxError as real * k;
      && e.Known? && e.st.offset == s.measurement as real && e.st.cov.oo == d * d
      && -0.5 <= Variance(e) as real - d * d <= 0.5
  {
    hide Variance;
  }

  /** A sample every later one is weighed against: its error is squared and divided by the square of that deviation. */
  lemma ErrorWeight(cfg: Config, s: Sample, A: real, B: real, k: real)
    requires s.maxError != 0 && k == if cfg.maxErrorScale > 0.0 then cfg.maxErrorScale else 1.0
    ensures MeasVar(FromConfig(cfg), s) != 0.0
    ensures var e, d := s.measurement as real - (A + B * s.time as real), s.maxError as real * k;
      SquaredError(FromConfig(cfg), s, A, B) * (d * d) == e * e
  {
    var p := FromConfig(cfg);
    MeasVarPositive(p, s);
    var e, r := s.measurement as real - (A + B * s.time as real), MeasVar(p, s);
    assert r == (s.maxError as real * k) * (s.maxError as real * k);
    assert SquaredError(p, s, A, B) == Loss(e, r);
    LossTimes(e, r);
  }

  /**
   adaptiveCutoff, minSamples and forgetFactor: from sample number minSamples + 1 on, a residual of more than the cutoff
   times the error bound, to either side, multiplies the predicted covariance by the factor squared; nothing else does.
   The two process deviations enter it squared, times the time since the last sample.
   */
  lemma Prediction(cfg: Config, st: State, s: Sample)
    requires !Stale(st, s)
    ensures var dt := s.time as real - st.lastUpdate as real;
      var residual, cut := s.measurement as real - (st.offset + st.drift * dt), s.maxError as real * cfg.adaptiveCutoff;
      var f := if st.count >= cfg.minSamples && (residual > cut || (residual < -cut && residual < 0.0))
               then cfg.forgetFactor * cfg.forgetFactor else 1.0;
      var c, n := st.cov, PredictedCov(FromConfig(cfg), st, s);
      && n.dd == (c.dd + dt * (cfg.driftProcessStdDev * cfg.driftProcessStdDev)) * f
      && n.od == (c.od + c.dd * dt) * f
      && n.oo == (c.oo + 2.0 * c.od * dt + c.dd * (dt * dt) + dt * (cfg.processStdDev * cfg.processStdDev)) * f
  {
    var p := FromConfig(cfg);
    ForgetsIs(cfg, st, s);
    PredictedIs(p, st, s, if Forgets(p, st, s) then p.forgetVarianceFactor else 1.0);
    ConfigSquares(cfg);
    hide PredictedCov, Forgets, FromConfig;
  }

  lemma ConfigSquares(cfg: Config)
    ensures var p := FromConfig(cfg);
      && p.processVariance == cfg.processStdDev * cfg.processStdDev
      && p.driftProcessVariance == cfg.driftProcessStdDev * cfg.driftProcessStdDev
      && p.forgetVarianceFactor == cfg.forgetFactor * cfg.forgetFactor
  {
  }

  lemma PredictedIs(p: Params, st: State, s: Sample, f: real)
    requires f == if Forgets(p, st, s) then p.forgetVarianceFactor else 1.0
    ensures var dt, c, n := s.time as real - st.lastUpdate as real, st.cov, PredictedCov(p, st, s);
      && n.dd == (c.dd + dt * p.driftProcessVariance) * f
      && n.od == (c.od + c.dd * dt) * f
      && n.oo == (c.oo + 2.0 * c.od * dt + c.dd * (dt * dt) + dt * p.processVariance) * f
  {
    var dt, c := Dt(st, s), st.cov;
    PredictedCovForm(p, st, s, dt, c.oo + 2.0 * c.od * dt + c.dd * (dt * dt) + dt * p.processVariance,
                     c.od + c.dd * dt, c.dd + dt * p.driftProcessVariance);
    hide PredictedCov, Forgets;
  }

  lemma ForgetsIs(cfg: Config, st: State, s: Sample)
    ensures var dt := s.time as real - st.lastUpdate as real;
      var residual, cut := s.measurement as real - (st.offset + st.drift * dt), s.maxError as real * cfg.adaptiveCutoff;
      Forgets(FromConfig(cfg), st, s) <==>
        st.count >= cfg.minSamples && (residual > cut || (residual < -cut && residual < 0.0))
  {
  }

  function Samples(e: Estimate): uint8 { if e.Known? then e.st.count else e.count }

  /**
   The samples counted, NaN or not: every accepted one until there are minSamples, and the first two in any case.
   */
  lemma {:induction false} CountIs(p: Params, e: Estimate, ss: seq<Sample>)
    requires (Samples(e) <= 2 || Samples(e) <= p.minSamples) && (e.NotANumber? ==> Samples(e) >= 2)
    ensures var top: int := if p.minSamples >= 2 then p.minSamples as int else 2;
      Samples(After(p, e, ss)) as int == Min(Samples(e) as int + |Accepted(LastUpdate(e), ss)|, top)
    decreases |ss|
  {
    if ss == [] {
    } else {
      NextCount(p, e, ss[0]);
      NextTime(p, e, ss[0]);
      if ss[0].time > LastUpdate(e) { AcceptedFirst(LastUpdate(e), ss); }
      hide Next, LastUpdate, Samples;
      CountIs(p, Next(p, e, ss[0]), ss[1..]);
    }
  }

  lemma NextCount(p: Params, e: Estimate, s: Sample)
    ensures e.NotANumber? && Samples(e) >= 2 ==> Next(p, e, s).NotANumber?
    ensures Next(p, e, s).NotANumber? ==> e.NotANumber? || Samples(e) >= 2
    ensures e.Known? || Samples(e) >= 2 ==>
      var counts := s.time > LastUpdate(e) && (Samples(e) < 2 || Samples(e) < p.minSamples);
      Samples(Next(p, e, s)) == if counts then Samples(e) + 1 else Samples(e)
  {
    hide Residual, PredictedCov, MeasVar, PredictedOffset, WithGains, Gain;
  }
}
