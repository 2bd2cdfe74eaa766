/**
 What the filter estimates with process noise, as in the default configuration: not a line but a path, whose offset and
 drift may jump at every sample. The estimate is the end of the one cheapest path: prior, plus every jump squared over
 its noise variance, plus every error squared over its variance. Adaptive forgetting discounts what came before it.
 */
module NoisyPaths {
  import opened Numbers
  import opened Kalman
  import opened TimeFilters
  import opened LeastSquares
  import opened Convolutions

  /** Offset and drift at one time. */
  datatype Point = Point(o: real, d: real)

  /** How far a point is from the estimate, in units of the estimate's own uncertainty. */
  function PointCost(st: State, x: Point): real
    requires Det(st.cov) != 0.0
  {
    Cost(st.cov, x.o - st.offset, x.d - st.drift)
  }

  function Move(x: Point, dt: real, j: Jump): Point { Point(x.o + x.d * dt + j.w, x.d + j.s) }

  /** Only what has noise may jump. */
  predicate Possible(p: Params, j: Jump) {
    (p.processVariance == 0.0 ==> j.w == 0.0) && (p.driftProcessVariance == 0.0 ==> j.s == 0.0)
  }

  predicate AllPossible(p: Params, js: seq<Jump>) { forall i :: 0 <= i < |js| ==> Possible(p, js[i]) }

  /** Every sample is newer than the one before it. */
  predicate Newer(last: int, acc: seq<Sample>)
    decreases |acc|
  {
    acc == [] || (acc[0].time > last && Newer(acc[0].time, acc[1..]))
  }

  lemma {:induction false} AcceptedNewer(last: int, ss: seq<Sample>)
    requires Accepted(last, ss) == ss
    ensures Newer(last, ss)
    decreases |ss|
  {
    if ss == [] {
    } else {
      AcceptedHead(last, ss);
      AcceptedNewer(ss[0].time, ss[1..]);
    }
  }

  // ---------------------------------------------------------------- one sample

  function JumpsCost(p: Params, st: State, s: Sample, j: Jump): real {
    PredictionCost(j, Dt(st, s), p.processVariance, p.driftProcessVariance)
  }

  function ErrorCost(p: Params, s: Sample, x: Point): real
    requires MeasVar(p, s) != 0.0
  {
    Loss(s.measurement as real - x.o, MeasVar(p, s))
  }

  /** The jump with which the cheapest path arrives at x. */
  function ArrivingJump(p: Params, st: State, s: Sample, x: Point): Jump {
    CheapestJump(st.cov, Dt(st, s), p.processVariance, p.driftProcessVariance, x.o - PredictedOffset(st, s),
                 x.d - st.drift)
  }

  /**
   Prediction, inflation and correction: no path does better than the filter's bookkeeping, and one jump does as well.
   */
  lemma StepPath(p: Params, st: State, s: Sample, x: Point, j: Jump, y: Point)
    requires WellFormed(p) && Tracking(st) && !Stale(st, s) && s.maxError != 0 && Possible(p, j)
    requires y == Move(x, Dt(st, s), j)
    ensures Defined(p, st, s) && Tracking(Step(p, st, s)) && MeasVar(p, s) > 0.0 && InnovationVar(p, st, s) > 0.0
    ensures Inflation(p, st, s) > 0.0
    ensures
      var l := (PointCost(st, x) + JumpsCost(p, st, s, j)) / Inflation(p, st, s) + ErrorCost(p, s, y);
      var r := PointCost(Step(p, st, s), y) + Loss(Residual(st, s), InnovationVar(p, st, s));
      l >= r && (l == r <==> j == ArrivingJump(p, st, s, y))
  {
    StepTracking(p, st, s);
    InflationSign(p, st, s);
    StepTime(p, st, s);
    var c := Predict(st.cov, Dt(st, s), p.processVariance, p.driftProcessVariance);
    var u, v := y.o - PredictedOffset(st, s), y.d - st.drift;
    var f := Inflation(p, st, s);
    PredictedPoint(st, s, x, j, y);
    PredictionJumps(st.cov, Dt(st, s), p.processVariance, p.driftProcessVariance, x.o - st.offset, x.d - st.drift, j,
                    u, v);
    hide Cost, Predict, Scale, Det, PD, PSD, Loss, MeasVar, Inflation, PredictedCov, PredictedOffset, Residual, Dt,
      Step,
      CheapestJump, PredictionCost, Forgets;
    PDSigns(st.cov);
    PositiveDet(c);
    PredictedCovPSD(p, st, s);
    PredictedCovScales(p, st, s);
    ScaleCost(c, f, u, v);
    CorrectPoint(p, st, s, y);
    Discount(Cost(st.cov, x.o - st.offset, x.d - st.drift) + JumpsCost(p, st, s, j), Cost(c, u, v), f);
  }

  lemma PredictedPoint(st: State, s: Sample, x: Point, j: Jump, y: Point)
    requires y == Move(x, Dt(st, s), j)
    ensures y.o - PredictedOffset(st, s) == (x.o - st.offset) + (x.d - st.drift) * Dt(st, s) + j.w
    ensures y.d - st.drift == (x.d - st.drift) + j.s
  {
    var dt := Dt(st, s);
    assert (x.d - st.drift) * dt == x.d * dt - st.drift * dt;
  }

  lemma Discount(x: real, y: real, f: real)
    requires f > 0.0 && x >= y
    ensures x / f >= y / f && (x / f == y / f <==> x == y)
  {
    var a, b := x / f, y / f;
    assert a * f == x && b * f == y;
    assert (a - b) * f == x - y;
    SignOf(a - b, f);
  }

  /** CorrectLine, for the line through y. */
  lemma CorrectPoint(p: Params, st: State, s: Sample, y: Point)
    requires WellFormed(p) && Tracking(st) && !Stale(st, s) && s.maxError != 0 && PD(PredictedCov(p, st, s))
    ensures Defined(p, st, s) && Tracking(Step(p, st, s)) && MeasVar(p, s) > 0.0 && InnovationVar(p, st, s) > 0.0
    ensures Cost(PredictedCov(p, st, s), y.o - PredictedOffset(st, s), y.d - st.drift) + ErrorCost(p, s, y)
         == PointCost(Step(p, st, s), y) + Loss(Residual(st, s), InnovationVar(p, st, s))
  {
    var t := s.time as real;
    var A := y.o - y.d * t;
    CorrectLine(p, st, s, A, y.d);
    StepTime(p, st, s);
    assert Line(A, y.d, t) == y.o;
    hide Cost, PredictedCov, PredictedOffset, Residual, MeasVar, Loss, Step, Line, PD;
  }

  // ---------------------------------------------------------------- a run

  /** Where a path from x ends. */
  function PathEnd(last: int, acc: seq<Sample>, js: seq<Jump>, x: Point): Point
    requires |js| == |acc|
    decreases |acc|
  {
    if acc == [] then x
    else PathEnd(acc[0].time, acc[1..], js[1..], Move(x, (acc[0].time - last) as real, js[0]))
  }

  /** The cost of the path from x with these jumps, one a sample, on top of `base`. */
  ghost function PathCost(p: Params, st: State, acc: seq<Sample>, js: seq<Jump>, x: Point, base: real): real
    requires WellFormed(p) && Tracking(st) && ErrorsNonzero(acc) && Newer(st.lastUpdate, acc) && |js| == |acc|
    decreases |acc|
  {
    if acc == [] then base
    else
      var s := acc[0];
      var y := Move(x, Dt(st, s), js[0]);
      StepTracking(p, st, s);
      InflationSign(p, st, s);
      StepTime(p, st, s);
      PathCost(p, Step(p, st, s), acc[1..], js[1..], y,
               (base + JumpsCost(p, st, s, js[0])) / Inflation(p, st, s) + ErrorCost(p, s, y))
  }

  /** The first step of a path, and what is left to pay. */
  ghost function Paid(p: Params, st: State, s: Sample, j: Jump, x: Point, base: real): real
    requires WellFormed(p) && MeasVar(p, s) != 0.0
  {
    InflationSign(p, st, s);
    (base + JumpsCost(p, st, s, j)) / Inflation(p, st, s) + ErrorCost(p, s, Move(x, Dt(st, s), j))
  }

  lemma PathStep(p: Params, st: State, acc: seq<Sample>, js: seq<Jump>, x: Point, base: real, k: real)
    requires WellFormed(p) && Tracking(st) && ErrorsNonzero(acc) && Newer(st.lastUpdate, acc) && |js| == |acc|
    requires acc != []
    ensures Defined(p, st, acc[0])
    ensures var s, j := acc[0], js[0]; var n := Step(p, st, s);
      && Defined(p, st, s) && Tracking(n) && n.lastUpdate == s.time && MeasVar(p, s) > 0.0 && !Stale(st, s)
      && InnovationVar(p, st, s) != 0.0 && Inflation(p, st, s) > 0.0
      && var y := Move(x, Dt(st, s), j);
      && PathCost(p, st, acc, js, x, base) == PathCost(p, n, acc[1..], js[1..], y, Paid(p, st, s, j, x, base))
      && PathEnd(st.lastUpdate, acc, js, x) == PathEnd(n.lastUpdate, acc[1..], js[1..], y)
      && Floor(p, st, acc, k)
           == Floor(p, n, acc[1..], k / Inflation(p, st, s) + Loss(Residual(st, s), InnovationVar(p, st, s)))
  {
    StepTracking(p, st, acc[0]);
    InflationSign(p, st, acc[0]);
    StepTime(p, st, acc[0]);
    hide Step, MeasVar, Inflation, InnovationVar, Tracking, Loss, Residual, JumpsCost, ErrorCost;
  }

  /** What one step adds to a base of PointCost + k. */
  lemma PaidBound(p: Params, st: State, s: Sample, j: Jump, x: Point, base: real, k: real)
    requires WellFormed(p) && Tracking(st) && !Stale(st, s) && s.maxError != 0 && Possible(p, j)
    requires base >= PointCost(st, x) + k
    ensures Defined(p, st, s) && Tracking(Step(p, st, s)) && MeasVar(p, s) > 0.0 && InnovationVar(p, st, s) > 0.0
    ensures Inflation(p, st, s) > 0.0
    ensures var y := Move(x, Dt(st, s), j);
      var bound := PointCost(Step(p, st, s), y) +
        (k / Inflation(p, st, s) + Loss(Residual(st, s), InnovationVar(p, st, s)));
      && Paid(p, st, s, j, x, base) >= bound
      && (Paid(p, st, s, j, x, base) == bound <==> base == PointCost(st, x) + k && j == ArrivingJump(p, st, s, y))
  {
    var y := Move(x, Dt(st, s), j);
    StepPath(p, st, s, x, j, y);
    var f, c := Inflation(p, st, s), JumpsCost(p, st, s, j);
    hide PointCost, JumpsCost, ErrorCost, ArrivingJump, Inflation, MeasVar, InnovationVar, Residual, Loss, Step,
      Tracking;
    Discount(base + c, PointCost(st, x) + k + c, f);
    AddQuotients(PointCost(st, x) + c, k, f);
    assert PointCost(st, x) + k + c == (PointCost(st, x) + c) + k;
  }

  lemma AddQuotients(x: real, y: real, f: real)
    requires f > 0.0
    ensures (x + y) / f == x / f + y / f
  {
    var a, b := x / f, y / f;
    assert a * f == x && b * f == y;
    var q := (x + y) / f;
    assert q * f == (a + b) * f;
    CancelRight(q, a + b, f);
  }

  /** No path is cheaper than its end allows. */
  lemma {:induction false} PathBound(p: Params, st: State, acc: seq<Sample>, js: seq<Jump>, x: Point, base: real,
                                     k: real)
    requires WellFormed(p) && Tracking(st) && ErrorsNonzero(acc) && Newer(st.lastUpdate, acc) && |js| == |acc|
    requires AllPossible(p, js) && base >= PointCost(st, x) + k
    ensures RunDefined(p, st, acc) && Tracking(Run(p, st, acc))
    ensures var l := PathCost(p, st, acc, js, x, base);
      var r := PointCost(Run(p, st, acc), PathEnd(st.lastUpdate, acc, js, x)) + Floor(p, st, acc, k);
      l >= r && (base > PointCost(st, x) + k ==> l > r)
    decreases |acc|
  {
    if acc == [] {
      assert RunDefined(p, st, acc) && Run(p, st, acc) == st;
    } else {
      var s, j := acc[0], js[0];
      PathStep(p, st, acc, js, x, base, k);
      PaidBound(p, st, s, j, x, base, k);
      RunOne(p, st, acc);
      hide PathCost, Floor, PathEnd, PointCost, Paid, Run, RunDefined, Step, Tracking, Inflation, InnovationVar,
        Residual,
        Loss, MeasVar, Defined, ArrivingJump;
      PathBound(p, Step(p, st, s), acc[1..], js[1..], Move(x, Dt(st, s), j), Paid(p, st, s, j, x, base),
                k / Inflation(p, st, s) + Loss(Residual(st, s), InnovationVar(p, st, s)));
    }
  }

  /** A path as cheap as its end allows. */
  ghost predicate Tight(p: Params, st: State, acc: seq<Sample>, js: seq<Jump>, x: Point, k: real)
    requires WellFormed(p) && Tracking(st) && ErrorsNonzero(acc) && Newer(st.lastUpdate, acc) && |js| == |acc|
    requires RunDefined(p, st, acc) && Tracking(Run(p, st, acc))
  {
    PathCost(p, st, acc, js, x, PointCost(st, x) + k)
      == PointCost(Run(p, st, acc), PathEnd(st.lastUpdate, acc, js, x)) + Floor(p, st, acc, k)
  }

  /** A tight path arrives tightly at its second point, and is tight from there. */
  lemma TightStep(p: Params, st: State, acc: seq<Sample>, js: seq<Jump>, x: Point, k: real) returns (k1: real)
    requires WellFormed(p) && Tracking(st) && ErrorsNonzero(acc) && Newer(st.lastUpdate, acc) && |js| == |acc|
    requires acc != []
    requires AllPossible(p, js)
    ensures Defined(p, st, acc[0])
    ensures var s := acc[0]; var n := Step(p, st, s); var y := Move(x, Dt(st, s), js[0]);
      && Defined(p, st, s) && Tracking(n) && n.lastUpdate == s.time && Inflation(p, st, s) > 0.0
      && InnovationVar(p, st, s) != 0.0
      && k1 == k / Inflation(p, st, s) + Loss(Residual(st, s), InnovationVar(p, st, s))
      && RunDefined(p, n, acc[1..]) && Tracking(Run(p, n, acc[1..]))
      && RunDefined(p, st, acc) && Tracking(Run(p, st, acc))
      && (Tight(p, st, acc, js, x, k) <==>
          js[0] == ArrivingJump(p, st, s, y) && Tight(p, n, acc[1..], js[1..], y, k1))
  {
    var s, j := acc[0], js[0];
    var base := PointCost(st, x) + k;
    PathStep(p, st, acc, js, x, base, k);
    PaidBound(p, st, s, j, x, base, k);
    RunOne(p, st, acc);
    k1 := k / Inflation(p, st, s) + Loss(Residual(st, s), InnovationVar(p, st, s));
    hide PathCost, Floor, PathEnd, PointCost, Paid, Run, RunDefined, Step, Tracking, Inflation, InnovationVar, Residual,
      Loss, MeasVar, Defined, ArrivingJump;
    PathBound(p, Step(p, st, s), acc[1..], js[1..], Move(x, Dt(st, s), j), Paid(p, st, s, j, x, base), k1);
  }

  /** Where a path that arrives at y comes from. */
  function Before(y: Point, dt: real, j: Jump): Point { Point(y.o - j.w - (y.d - j.s) * dt, y.d - j.s) }

  lemma MoveBefore(x: Point, y: Point, dt: real, j: Jump)
    ensures y == Move(x, dt, j) <==> x == Before(y, dt, j)
  {
  }

  lemma ArrivingPossible(p: Params, st: State, s: Sample, x: Point)
    requires WellFormed(p)
    ensures Possible(p, ArrivingJump(p, st, s, x))
  {
    var dt, q, qd := Dt(st, s), p.processVariance, p.driftProcessVariance;
    var u, v := x.o - PredictedOffset(st, s), x.d - st.drift;
    var c0, w := Predict(st.cov, dt, 0.0, 0.0), CheapestJump(st.cov, dt, q, qd, u, v).w;
    PredictionParts(st.cov, dt, q, qd, u, v, Jump(0.0, 0.0));
    if q == 0.0 { NoJump(Swap(NoisyDrift(c0, dt * qd)), dt * q, v, u); }
    if qd == 0.0 { NoJump(c0, dt * qd, u - w, v); }
    hide DriftJump, Predict, PredictedOffset, Dt, NoisyDrift;
  }

  /** To every end there is a tight path. */
  lemma {:induction false} TightPath(p: Params, st: State, acc: seq<Sample>, end: Point, k: real)
    returns (js: seq<Jump>, x: Point)
    requires WellFormed(p) && Tracking(st) && ErrorsNonzero(acc) && Newer(st.lastUpdate, acc)
    ensures |js| == |acc| && AllPossible(p, js) && PathEnd(st.lastUpdate, acc, js, x) == end
    ensures RunDefined(p, st, acc) && Tracking(Run(p, st, acc)) && Tight(p, st, acc, js, x, k)
    decreases |acc|
  {
    if acc == [] {
      js, x := [], end;
      assert RunDefined(p, st, acc) && Run(p, st, acc) == st;
    } else {
      var s := acc[0];
      StepTracking(p, st, s);
      InflationSign(p, st, s);
      StepTime(p, st, s);
      var n := Step(p, st, s);
      var k1 := k / Inflation(p, st, s) + Loss(Residual(st, s), InnovationVar(p, st, s));
      hide PathCost, Floor, PathEnd, PointCost, Run, RunDefined, Step, Tracking, Inflation, InnovationVar, Residual,
        Loss,
        MeasVar, Defined, ArrivingJump, Tight, Possible;
      var js1, y := TightPath(p, n, acc[1..], end, k1);
      var j := ArrivingJump(p, st, s, y);
      ArrivingPossible(p, st, s, y);
      x := Before(y, Dt(st, s), j);
      MoveBefore(x, y, Dt(st, s), j);
      js := [j] + js1;
      assert js[1..] == js1;
      var k2 := TightStep(p, st, acc, js, x, k);
      PathStep(p, st, acc, js, x, 0.0, k);
    }
  }

  /** And only one. */
  lemma {:induction false} OnlyTightPath(p: Params, st: State, acc: seq<Sample>, js: seq<Jump>, x: Point,
                                         js': seq<Jump>, x': Point, k: real)
    requires WellFormed(p) && Tracking(st) && ErrorsNonzero(acc) && Newer(st.lastUpdate, acc)
    requires |js| == |acc| == |js'| && AllPossible(p, js) && AllPossible(p, js')
    requires PathEnd(st.lastUpdate, acc, js, x) == PathEnd(st.lastUpdate, acc, js', x')
    requires RunDefined(p, st, acc) && Tracking(Run(p, st, acc))
    requires Tight(p, st, acc, js, x, k) && Tight(p, st, acc, js', x', k)
    ensures js == js' && x == x'
    decreases |acc|
  {
    if acc == [] {
      assert js == [] == js';
    } else {
      var s := acc[0];
      var dt := Dt(st, s);
      hide PathCost, Floor, PointCost, Run, RunDefined, Step, Tracking, Inflation, InnovationVar, Residual, Loss,
        MeasVar,
        Defined, ArrivingJump, Tight;
      var k1 := TightStep(p, st, acc, js, x, k);
      var k1' := TightStep(p, st, acc, js', x', k);
      var y, y' := Move(x, dt, js[0]), Move(x', dt, js'[0]);
      OnlyTightPath(p, Step(p, st, s), acc[1..], js[1..], y, js'[1..], y', k1);
      MoveBefore(x, y, dt, js[0]);
      MoveBefore(x', y', dt, js'[0]);
      assert js == [js[0]] + js[1..] && js' == [js'[0]] + js'[1..];
    }
  }

  // ---------------------------------------------------------------- the theorem

  /**
   Main result: for any noise settings, over any run of newer samples from a filter past its second sample, forgetting
   included, the estimate is the end of one path that is cheaper than every other.
   */
  lemma CheapestPath(p: Params, st: State, acc: seq<Sample>) returns (js: seq<Jump>, x: Point)
    requires WellFormed(p) && Tracking(st) && ErrorsNonzero(acc) && Newer(st.lastUpdate, acc)
    ensures RunDefined(p, st, acc) && |js| == |acc| && AllPossible(p, js)
    ensures PathEnd(st.lastUpdate, acc, js, x) == Point(Run(p, st, acc).offset, Run(p, st, acc).drift)
    ensures forall js', x' :: |js'| == |acc| && AllPossible(p, js') && (js' != js || x' != x) ==>
      PathCost(p, st, acc, js', x', PointCost(st, x')) > PathCost(p, st, acc, js, x, PointCost(st, x))
  {
    js, x := TightPath(p, st, acc, Point(0.0, 0.0), 0.0);
    var n := Run(p, st, acc);
    js, x := TightPath(p, st, acc, Point(n.offset, n.drift), 0.0);
    OwnPoint(n);
    forall js', x' | |js'| == |acc| && AllPossible(p, js') && (js' != js || x' != x)
      ensures PathCost(p, st, acc, js', x', PointCost(st, x')) > PathCost(p, st, acc, js, x, PointCost(st, x))
    {
      PathBound(p, st, acc, js', x', PointCost(st, x') + 0.0, 0.0);
      var end := PathEnd(st.lastUpdate, acc, js', x');
      OtherPoint(n, end);
      if end == Point(n.offset, n.drift) && Tight(p, st, acc, js', x', 0.0) {
        OnlyTightPath(p, st, acc, js, x, js', x', 0.0);
      }
      hide PathCost, PointCost, Floor, PathEnd, Run, RunDefined, Tracking;
    }
  }

  /** What the first two samples say about offset and drift at the second. */
  ghost function StartCost(p: Params, s1: Sample, s2: Sample, x: Point): real
    requires WellFormed(p) && 0 < s1.time < s2.time && s1.maxError != 0 && s2.maxError != 0
  {
    MeasVarPositive(p, s1); MeasVarPositive(p, s2);
    Loss(s2.measurement as real - x.o, MeasVar(p, s2)) + Loss(SlopeError(s1, s2, x.d), MeasVar(p, s1) + MeasVar(p, s2))
  }

  lemma StartIs(p: Params, s1: Sample, s2: Sample, x: Point)
    requires WellFormed(p) && 0 < s1.time < s2.time && s1.maxError != 0 && s2.maxError != 0
    ensures Tracking(SecondState(p, s1, s2)) && SecondState(p, s1, s2).lastUpdate == s2.time
    ensures PointCost(SecondState(p, s1, s2), x) == StartCost(p, s1, s2, x)
  {
    hide Line, MeasVar, Loss, Cost, SecondState, SlopeError;
    var t := s2.time as real;
    var A := LineThrough(x, t);
    SecondPriorTerms(p, s1, s2, A, x.d);
    SecondStateIs(p, s1, s2);
  }

  lemma LineThrough(x: Point, t: real) returns (A: real)
    ensures Line(A, x.d, t) == x.o
  {
    A := x.o - x.d * t;
  }

  /**
   The same over every run from a fresh filter, stale timestamps and forgetting anywhere: two samples, then one cheapest
   path through all that are accepted after them. It holds for the default configuration, whose drift is noisy.
   */
  lemma NoisyFit(p: Params, ss: seq<Sample>) returns (js: seq<Jump>, x: Point)
    requires WellFormed(p) && ErrorsNonzero(Accepted(0, ss)) && |Accepted(0, ss)| >= 2
    ensures RunDefined(p, FRESH, ss)
    ensures var acc := Accepted(0, ss); 0 < acc[0].time < acc[1].time && ErrorsNonzero(acc[2..])
    ensures var acc, n := Accepted(0, ss), Run(p, FRESH, ss); var st, later := SecondState(p, acc[0], acc[1]), acc[2..];
      && Tracking(st) && Newer(st.lastUpdate, later)
      && |js| == |later| && AllPossible(p, js) && PathEnd(acc[1].time, later, js, x) == Point(n.offset, n.drift)
      && forall js', x' :: |js'| == |later| && AllPossible(p, js') && (js' != js || x' != x) ==>
        PathCost(p, st, later, js', x', StartCost(p, acc[0], acc[1], x'))
          > PathCost(p, st, later, js, x, StartCost(p, acc[0], acc[1], x))
  {
    RunInv(p, FRESH, ss);
    AcceptedOnly(p, FRESH, ss);
    var acc := Accepted(0, ss);
    AcceptedTail(0, acc);
    RunFromSecond(p, acc);
    StartIs(p, acc[0], acc[1], Point(0.0, 0.0));
    var st, later := SecondState(p, acc[0], acc[1]), acc[2..];
    AcceptedNewer(acc[1].time, later);
    assert ErrorsNonzero(later);
    hide Run, RunDefined, SecondState, PointCost, StartCost, PathCost, PathEnd, Tracking, Accepted, Inv;
    js, x := CheapestPath(p, st, later);
    StartIs(p, acc[0], acc[1], x);
    forall js', x' | |js'| == |later| && AllPossible(p, js') && (js' != js || x' != x)
      ensures PathCost(p, st, later, js', x', StartCost(p, acc[0], acc[1], x'))
        > PathCost(p, st, later, js, x, StartCost(p, acc[0], acc[1], x))
    {
      StartIs(p, acc[0], acc[1], x');
    }
  }

  lemma OwnPoint(n: State)
    requires Tracking(n)
    ensures PointCost(n, Point(n.offset, n.drift)) == 0.0
  {
    CostPositive(n.cov, 0.0, 0.0);
  }

  lemma OtherPoint(n: State, x: Point)
    requires Tracking(n)
    ensures PointCost(n, x) >= 0.0 && (PointCost(n, x) == 0.0 <==> x == Point(n.offset, n.drift))
  {
    CostPositive(n.cov, x.o - n.offset, x.d - n.drift);
  }
}
