/**
 How the filter's line compares with the weighted least-squares fit of all accepted samples: they are the same line
 exactly when it passes through the first two measurements.
 */
module PlainFits {
  import opened Numbers
  import opened Kalman
  import opened TimeFilters
  import opened LeastSquares

  // ---------------------------------------------------------------- moving a line

  /** m is what s becomes on moving by x, where its slope is -2c and its curvature 2q. */
  predicate Moved(m: real, s: real, c: real, q: real, x: real) { m == s - 2.0 * x * c + x * x * q }

  /** Two expansions, added. */
  lemma Collect(m: real, s: real, c: real, q: real, m': real, s': real, c': real, q': real, x: real)
    requires Moved(m, s, c, q, x) && Moved(m', s', c', q', x)
    ensures Moved(m + m', s + s', c + c', q + q', x)
  {
  }

  /** The error e against the change d, weighted. */
  function Cross(e: real, d: real, r: real): real
    requires r != 0.0
  {
    e * d / r
  }

  lemma LossMoves(e: real, d: real, x: real, r: real, e': real)
    requires r > 0.0 && e' == e - x * d
    ensures Moved(Loss(e', r), Loss(e, r), Cross(e, d, r), Loss(d, r), x)
  {
    var i := 1.0 / r;
    assert i * r == 1.0;
    Quotient(e' * e', r); Quotient(e * e, r); Quotient(e * d, r); Quotient(d * d, r);
    Square(e, d, x, i);
  }

  lemma Square(e: real, d: real, x: real, i: real)
    ensures (e - x * d) * (e - x * d) * i == e * e * i - 2.0 * x * (e * d * i) + x * x * (d * d * i)
  {
  }

  function ErrorOf(s: Sample, A: real, B: real): real { s.measurement as real - Line(A, B, s.time as real) }

  /** The sum's slope in the direction of the line a + b*t. */
  ghost function CrossSum(p: Params, ss: seq<Sample>, A: real, B: real, a: real, b: real): real
    requires WellFormed(p) && ErrorsNonzero(ss)
  {
    if ss == [] then 0.0
    else
      MeasVarPositive(p, ss[0]);
      Cross(ErrorOf(ss[0], A, B), Line(a, b, ss[0].time as real), MeasVar(p, ss[0])) + CrossSum(p, ss[1..], A, B, a, b)
  }

  /** And its curvature. */
  ghost function SquareSum(p: Params, ss: seq<Sample>, a: real, b: real): (q: real)
    requires WellFormed(p) && ErrorsNonzero(ss)
    ensures q >= 0.0
  {
    if ss == [] then 0.0
    else
      MeasVarPositive(p, ss[0]);
      LossEven(Line(a, b, ss[0].time as real), MeasVar(p, ss[0]));
      Loss(Line(a, b, ss[0].time as real), MeasVar(p, ss[0])) + SquareSum(p, ss[1..], a, b)
  }

  lemma {:induction false} SumMoves(p: Params, ss: seq<Sample>, A: real, B: real, a: real, b: real,
                                        x: real, A': real, B': real)
    requires WellFormed(p) && ErrorsNonzero(ss) && A' == A + x * a && B' == B + x * b
    ensures Moved(SumOfSquares(p, ss, A', B'), SumOfSquares(p, ss, A, B),
                  CrossSum(p, ss, A, B, a, b), SquareSum(p, ss, a, b), x)
  {
    if ss == [] {
      assert SumOfSquares(p, ss, A', B') == 0.0;
    } else {
      var s := ss[0];
      MeasVarPositive(p, s);
      SumMoves(p, ss[1..], A, B, a, b, x, A', B');
      var e, e', d, r := ErrorOf(s, A, B), ErrorOf(s, A', B'), Line(a, b, s.time as real), MeasVar(p, s);
      ErrorMoves(s, A, B, a, b, x, A', B');
      LossMoves(e, d, x, r, e');
      ErrorIs(p, s, A', B');
      ErrorIs(p, s, A, B);
      assert SumOfSquares(p, ss, A', B') == Loss(e', r) + SumOfSquares(p, ss[1..], A', B');
      assert SumOfSquares(p, ss, A, B) == Loss(e, r) + SumOfSquares(p, ss[1..], A, B);
      assert CrossSum(p, ss, A, B, a, b) == Cross(e, d, r) + CrossSum(p, ss[1..], A, B, a, b);
      assert SquareSum(p, ss, a, b) == Loss(d, r) + SquareSum(p, ss[1..], a, b);
      hide *;
      Collect(Loss(e', r), Loss(e, r), Cross(e, d, r), Loss(d, r),
              SumOfSquares(p, ss[1..], A', B'), SumOfSquares(p, ss[1..], A, B),
              CrossSum(p, ss[1..], A, B, a, b), SquareSum(p, ss[1..], a, b), x);
    }
  }

  lemma ErrorIs(p: Params, s: Sample, A: real, B: real)
    requires MeasVar(p, s) != 0.0
    ensures SquaredError(p, s, A, B) == Loss(ErrorOf(s, A, B), MeasVar(p, s))
  {
  }

  lemma ErrorMoves(s: Sample, A: real, B: real, a: real, b: real, x: real, A': real, B': real)
    requires A' == A + x * a && B' == B + x * b
    ensures ErrorOf(s, A', B') == ErrorOf(s, A, B) - x * Line(a, b, s.time as real)
  {
    var t := s.time as real;
    assert A' + B' * t == (A + B * t) + x * (a + b * t);
  }

  // ---------------------------------------------------------------- the filter's objective

  /** The first two samples' own terms in the slope of the plain sum, at the filter's line. */
  function Tilt(e1: real, e2: real, d1: real, d2: real, r1: real, r2: real): real
    requires r1 > 0.0 && r2 > 0.0
  {
    Cross(e1, d1, r1) + Cross(e1 - e2, d2 - d1, r1 + r2)
  }

  /** The filter's objective, moved along a line. */
  lemma FitMoves(p: Params, acc: seq<Sample>, A: real, B: real, a: real, b: real, x: real, A': real, B': real)
    requires A' == A + x * a && B' == B + x * b
    requires WellFormed(p) && ErrorsNonzero(acc) && |acc| >= 2 && 0 < acc[0].time < acc[1].time
    ensures MeasVar(p, acc[0]) > 0.0 && MeasVar(p, acc[1]) > 0.0 && ErrorsNonzero(acc[1..])
    ensures var r := MeasVar(p, acc[0]) + MeasVar(p, acc[1]);
      var s := ErrorOf(acc[0], A, B) - ErrorOf(acc[1], A, B);
      var d := Line(a, b, acc[1].time as real) - Line(a, b, acc[0].time as real);
      Moved(FitCost(p, acc, A', B'), FitCost(p, acc, A, B),
            CrossSum(p, acc[1..], A, B, a, b) + -Cross(s, d, r), SquareSum(p, acc[1..], a, b) + Loss(d, r), x)
  {
    MeasVarPositive(p, acc[0]); MeasVarPositive(p, acc[1]);
    var r := MeasVar(p, acc[0]) + MeasVar(p, acc[1]);
    var s := ErrorOf(acc[0], A, B) - ErrorOf(acc[1], A, B);
    var d := Line(a, b, acc[1].time as real) - Line(a, b, acc[0].time as real);
    SumMoves(p, acc[1..], A, B, a, b, x, A', B');
    SlopeMoves(acc[0], acc[1], A, B, a, b, x, A', B');
    FitCostSlope(p, acc, A, B);
    FitCostSlope(p, acc, A', B');
    hide MeasVar, Line, Loss, Cross, ErrorOf, FitCost, SumOfSquares, CrossSum, SquareSum, Moved;
    var s' := ErrorOf(acc[0], A', B') - ErrorOf(acc[1], A', B');
    SlopeLossMoves(s, d, x, r, s');
    assert FitCost(p, acc, A', B') == SumOfSquares(p, acc[1..], A', B') + Loss(s', r);
    assert FitCost(p, acc, A, B) == SumOfSquares(p, acc[1..], A, B) + Loss(s, r);
    Collect(SumOfSquares(p, acc[1..], A', B'), SumOfSquares(p, acc[1..], A, B),
            CrossSum(p, acc[1..], A, B, a, b), SquareSum(p, acc[1..], a, b),
            Loss(s', r), Loss(s, r), -Cross(s, d, r), Loss(d, r), x);
  }

  lemma SlopeLossMoves(s: real, d: real, x: real, r: real, s': real)
    requires r > 0.0 && s' == s + x * d
    ensures Moved(Loss(s', r), Loss(s, r), -Cross(s, d, r), Loss(d, r), x)
  {
    assert s' == s - x * (-d);
    LossMoves(s, -d, x, r, s');
    LossEven(d, r);
    CrossNegates(s, d, r);
    hide Loss, Cross, Moved;
  }

  lemma CrossNegates(e: real, d: real, r: real)
    requires r > 0.0
    ensures Cross(e, -d, r) == -Cross(e, d, r)
  {
    Quotient(e * (-d), r); Quotient(e * d, r);
    assert e * (-d) == -(e * d);
  }

  /** The slope's error is the difference of the first two errors. */
  lemma FitCostSlope(p: Params, acc: seq<Sample>, A: real, B: real)
    requires WellFormed(p) && ErrorsNonzero(acc) && |acc| >= 2 && 0 < acc[0].time < acc[1].time
    requires MeasVar(p, acc[0]) > 0.0 && MeasVar(p, acc[1]) > 0.0
    ensures FitCost(p, acc, A, B) == SumOfSquares(p, acc[1..], A, B)
      + Loss(ErrorOf(acc[0], A, B) - ErrorOf(acc[1], A, B), MeasVar(p, acc[0]) + MeasVar(p, acc[1]))
  {
    var s1, s2 := acc[0], acc[1];
    LineStep(A, B, s1.time as real, s2.time as real, (s2.time - s1.time) as real);
    assert ErrorOf(s1, A, B) - ErrorOf(s2, A, B) == SlopeError(s1, s2, B);
    hide MeasVar, Loss, Line, SumOfSquares, SlopeError, ErrorOf;
  }

  lemma SlopeMoves(s1: Sample, s2: Sample, A: real, B: real, a: real, b: real, x: real, A': real, B': real)
    requires A' == A + x * a && B' == B + x * b
    ensures var d := Line(a, b, s2.time as real) - Line(a, b, s1.time as real);
      ErrorOf(s1, A', B') - ErrorOf(s2, A', B') == ErrorOf(s1, A, B) - ErrorOf(s2, A, B) + x * d
  {
    ErrorMoves(s1, A, B, a, b, x, A', B');
    ErrorMoves(s2, A, B, a, b, x, A', B');
    var l1, l2 := Line(a, b, s1.time as real), Line(a, b, s2.time as real);
    hide ErrorOf, Line;
    assert x * (l2 - l1) == x * l2 - x * l1;
  }

  /** At the filter's line its objective has no slope in any direction. */
  lemma NoSlope(p: Params, ss: seq<Sample>, a: real, b: real)
    requires Fitted(p, ss)
    ensures RunDefined(p, FRESH, ss)
    ensures var acc, n := Accepted(0, ss), Run(p, FRESH, ss);
      && 0 < acc[0].time < acc[1].time && MeasVar(p, acc[0]) > 0.0 && MeasVar(p, acc[1]) > 0.0
      && ErrorsNonzero(acc[1..])
      && var A, B := LineOffset(n), n.drift;
      CrossSum(p, acc[1..], A, B, a, b) == Cross(
        ErrorOf(acc[0], A, B) - ErrorOf(acc[1], A, B),
        Line(a, b, acc[1].time as real) - Line(a, b, acc[0].time as real), MeasVar(p, acc[0]) + MeasVar(p, acc[1]))
  {
    FitCentre(p, ss, 0.0, 0.0);
    var acc, n := Accepted(0, ss), Run(p, FRESH, ss);
    var A, B := LineOffset(n), n.drift;
    FitCentre(p, ss, A + a, B + b);
    FitCentre(p, ss, A - a, B - b);
    FitMoves(p, acc, A, B, a, b, 1.0, A + a, B + b);
    FitMoves(p, acc, A, B, a, b, -1.0, A - a, B - b);
    LineCostEven(n, a, b);
    var r := MeasVar(p, acc[0]) + MeasVar(p, acc[1]);
    var s := ErrorOf(acc[0], A, B) - ErrorOf(acc[1], A, B);
    var d := Line(a, b, acc[1].time as real) - Line(a, b, acc[0].time as real);
    hide FitCost, LineCost, CrossSum, SquareSum, Cross, Loss, Line, ErrorOf, MeasVar, Run, RunDefined, Accepted, Fitted;
    hide Moved;
    EvenMoves(FitCost(p, acc, A + a, B + b), FitCost(p, acc, A, B),
              CrossSum(p, acc[1..], A, B, a, b) + -Cross(s, d, r), SquareSum(p, acc[1..], a, b) + Loss(d, r));
  }

  lemma EvenMoves(m: real, s: real, c: real, q: real)
    requires Moved(m, s, c, q, 1.0) && Moved(m, s, c, q, -1.0)
    ensures c == 0.0
  {
  }

  lemma LineCostEven(n: State, a: real, b: real)
    requires Tracking(n)
    ensures var A, B := LineOffset(n), n.drift;
      LineCost(n, A + a, B + b) == LineCost(n, A - a, B - b)
  {
    var A, B, t := LineOffset(n), n.drift, n.lastUpdate as real;
    var u := a + b * t;
    LineSums(A, B, a, b, t);
    OwnLine(n);
    hide Line, LineOffset, Cost;
    assert Line(A + a, B + b, t) - n.offset == u;
    assert Line(A - a, B - b, t) - n.offset == -u;
    CostEven(n.cov, u, b);
  }

  lemma LineSums(A: real, B: real, a: real, b: real, t: real)
    ensures Line(A + a, B + b, t) == Line(A, B, t) + (a + b * t)
    ensures Line(A - a, B - b, t) == Line(A, B, t) - (a + b * t)
  {
    assert (B + b) * t == B * t + b * t && (B - b) * t == B * t - b * t;
  }

  lemma OwnLine(n: State)
    ensures Line(LineOffset(n), n.drift, n.lastUpdate as real) == n.offset
  {
  }

  lemma CostEven(c: Cov, u: real, v: real)
    requires Det(c) != 0.0
    ensures Cost(c, -u, -v) == Cost(c, u, v)
  {
    assert (-u) * (-u) == u * u && (-v) * (-v) == v * v && (-u) * (-v) == u * v;
    var k := Cost(c, u, v);
    CostIs(c, u, v, k);
    assert Form(c.oo, c.od, c.dd, -u, -v) == Form(c.oo, c.od, c.dd, u, v);
    CostIs(c, -u, -v, k);
  }

  // ---------------------------------------------------------------- the plain sum

  /** The plain sum around the filter's line: its slope is what the first two samples leave. */
  lemma PlainMoves(p: Params, ss: seq<Sample>, a: real, b: real, x: real, A': real, B': real)
    requires Fitted(p, ss)
    requires RunDefined(p, FRESH, ss) ==>
      var n := Run(p, FRESH, ss); A' == LineOffset(n) + x * a && B' == n.drift + x * b
    ensures RunDefined(p, FRESH, ss)
    ensures var acc, n := Accepted(0, ss), Run(p, FRESH, ss); var A, B := LineOffset(n), n.drift;
      && 0 < acc[0].time < acc[1].time && MeasVar(p, acc[0]) > 0.0 && MeasVar(p, acc[1]) > 0.0
      && Moved(SumOfSquares(p, acc, A', B'), SumOfSquares(p, acc, A, B),
               Tilt(ErrorOf(acc[0], A, B), ErrorOf(acc[1], A, B), Line(a, b, acc[0].time as real),
                    Line(a, b, acc[1].time as real), MeasVar(p, acc[0]), MeasVar(p, acc[1])),
               SquareSum(p, acc, a, b), x)
  {
    NoSlope(p, ss, a, b);
    var acc, n := Accepted(0, ss), Run(p, FRESH, ss);
    hide FitCost, Cross, Loss, Line, ErrorOf, MeasVar, Run, RunDefined, Accepted, Fitted, SumOfSquares, SquareSum,
      Moved;
    SumMoves(p, acc, LineOffset(n), n.drift, a, b, x, A', B');
  }

  /** No line fits the accepted samples better, in the plain weighted sum of squares over all of them. */
  ghost predicate BestPlain(p: Params, acc: seq<Sample>, A: real, B: real)
    requires WellFormed(p) && ErrorsNonzero(acc)
  {
    forall A', B' :: SumOfSquares(p, acc, A', B') >= SumOfSquares(p, acc, A, B)
  }

  /**
   Main result: the filter's line is the weighted least-squares fit of all accepted samples if and only if it passes
   through the first two measurements.
   */
  lemma PlainFitIff(p: Params, ss: seq<Sample>)
    requires Fitted(p, ss)
    ensures RunDefined(p, FRESH, ss)
    ensures var acc, n := Accepted(0, ss), Run(p, FRESH, ss); var A, B := LineOffset(n), n.drift;
      BestPlain(p, acc, A, B) <==> ErrorOf(acc[0], A, B) == 0.0 && ErrorOf(acc[1], A, B) == 0.0
  {
    NoSlope(p, ss, 0.0, 0.0);
    var acc, n := Accepted(0, ss), Run(p, FRESH, ss);
    var A, B := LineOffset(n), n.drift;
    if ErrorOf(acc[0], A, B) == 0.0 && ErrorOf(acc[1], A, B) == 0.0 {
      forall A', B' ensures SumOfSquares(p, acc, A', B') >= SumOfSquares(p, acc, A, B) {
        ThroughBoth(p, ss, A', B');
      }
    }
    if BestPlain(p, acc, A, B) {
      FirstError(p, ss);
      SecondError(p, ss);
    }
  }

  lemma ThroughBoth(p: Params, ss: seq<Sample>, A': real, B': real)
    requires Fitted(p, ss) && RunDefined(p, FRESH, ss)
    requires var acc, n := Accepted(0, ss), Run(p, FRESH, ss);
      ErrorOf(acc[0], LineOffset(n), n.drift) == 0.0 && ErrorOf(acc[1], LineOffset(n), n.drift) == 0.0
    ensures var acc, n := Accepted(0, ss), Run(p, FRESH, ss);
      SumOfSquares(p, acc, A', B') >= SumOfSquares(p, acc, LineOffset(n), n.drift)
  {
    var acc, n := Accepted(0, ss), Run(p, FRESH, ss);
    var A, B := LineOffset(n), n.drift;
    var a, b := A' - A, B' - B;
    PlainMoves(p, ss, a, b, 1.0, A', B');
    hide SumOfSquares, SquareSum, Run, RunDefined, Accepted, Fitted, MeasVar, Line, ErrorOf;
    NoTilt(Line(a, b, acc[0].time as real), Line(a, b, acc[1].time as real), MeasVar(p, acc[0]), MeasVar(p, acc[1]));
  }

  lemma NoTilt(d1: real, d2: real, r1: real, r2: real)
    requires r1 > 0.0 && r2 > 0.0
    ensures Tilt(0.0, 0.0, d1, d2, r1, r2) == 0.0
  {
  }

  /** A sum that never falls below its value at x = 0 has no slope there. */
  lemma FlatBottom(m: real, s: real, t: real, k: real, x: real)
    requires k >= 0.0 && x * (k + 1.0) == t && m >= s && Moved(m, s, t, k, x)
    ensures t == 0.0
  {
    if x != 0.0 {
      SqSign(x);
      Drop(x, k, t);
      ProductPositive(Sq(x), k + 2.0);
    }
  }

  lemma Drop(x: real, k: real, t: real)
    requires x * (k + 1.0) == t
    ensures 2.0 * x * t - x * x * k == Sq(x) * (k + 2.0)
  {
    var y := x * x;
    assert Sq(x) == y;
    assert x * t == y * (k + 1.0);
    assert 2.0 * x * t == 2.0 * (x * t);
  }

  /** Shifting the line up and down. */
  lemma FirstError(p: Params, ss: seq<Sample>)
    requires Fitted(p, ss) && RunDefined(p, FRESH, ss)
    requires BestPlain(p, Accepted(0, ss), LineOffset(Run(p, FRESH, ss)), Run(p, FRESH, ss).drift)
    ensures ErrorOf(Accepted(0, ss)[0], LineOffset(Run(p, FRESH, ss)), Run(p, FRESH, ss).drift) == 0.0
  {
    var acc, n := Accepted(0, ss), Run(p, FRESH, ss);
    var A, B := LineOffset(n), n.drift;
    var t := SlopeVanishes(p, ss, 1.0, 0.0);
    var r1 := MeasVar(p, acc[0]);
    assert Line(1.0, 0.0, acc[0].time as real) == 1.0 == Line(1.0, 0.0, acc[1].time as real);
    hide SumOfSquares, SquareSum, Run, RunDefined, Accepted, Fitted, MeasVar, Line, ErrorOf, BestPlain;
    TiltUp(ErrorOf(acc[0], A, B), ErrorOf(acc[1], A, B), r1, MeasVar(p, acc[1]));
  }

  lemma TiltUp(e1: real, e2: real, r1: real, r2: real)
    requires r1 > 0.0 && r2 > 0.0 && Tilt(e1, e2, 1.0, 1.0, r1, r2) == 0.0
    ensures e1 == 0.0
  {
    var q := e1 * 1.0 / r1;
    assert (e1 - e2) * (1.0 - 1.0) == 0.0;
    assert q == 0.0 && q * r1 == e1;
  }

  /** Turning it about the first sample. */
  lemma SecondError(p: Params, ss: seq<Sample>)
    requires Fitted(p, ss) && RunDefined(p, FRESH, ss)
    requires BestPlain(p, Accepted(0, ss), LineOffset(Run(p, FRESH, ss)), Run(p, FRESH, ss).drift)
    requires ErrorOf(Accepted(0, ss)[0], LineOffset(Run(p, FRESH, ss)), Run(p, FRESH, ss).drift) == 0.0
    ensures ErrorOf(Accepted(0, ss)[1], LineOffset(Run(p, FRESH, ss)), Run(p, FRESH, ss).drift) == 0.0
  {
    var acc, n := Accepted(0, ss), Run(p, FRESH, ss);
    var A, B := LineOffset(n), n.drift;
    var t1, t2 := acc[0].time as real, acc[1].time as real;
    var t := SlopeVanishes(p, ss, -t1, 1.0);
    assert Line(-t1, 1.0, t1) == 0.0 && Line(-t1, 1.0, t2) == t2 - t1;
    hide SumOfSquares, SquareSum, Run, RunDefined, Accepted, Fitted, MeasVar, Line, ErrorOf, BestPlain;
    TiltTurn(ErrorOf(acc[1], A, B), t2 - t1, MeasVar(p, acc[0]), MeasVar(p, acc[1]));
  }

  lemma TiltTurn(e2: real, dt: real, r1: real, r2: real)
    requires r1 > 0.0 && r2 > 0.0 && dt > 0.0 && Tilt(0.0, e2, 0.0, dt, r1, r2) == 0.0
    ensures e2 == 0.0
  {
    var r := r1 + r2;
    var q := (0.0 - e2) * (dt - 0.0) / r;
    assert q == 0.0 && q * r == -(e2 * dt);
    CancelRight(e2, 0.0, dt);
  }

  lemma SlopeVanishes(p: Params, ss: seq<Sample>, a: real, b: real) returns (t: real)
    requires Fitted(p, ss) && RunDefined(p, FRESH, ss)
    requires BestPlain(p, Accepted(0, ss), LineOffset(Run(p, FRESH, ss)), Run(p, FRESH, ss).drift)
    ensures var acc, n := Accepted(0, ss), Run(p, FRESH, ss); var A, B := LineOffset(n), n.drift;
      && 0 < acc[0].time < acc[1].time && MeasVar(p, acc[0]) > 0.0 && MeasVar(p, acc[1]) > 0.0 && t == 0.0
      && t == Tilt(ErrorOf(acc[0], A, B), ErrorOf(acc[1], A, B), Line(a, b, acc[0].time as real),
                   Line(a, b, acc[1].time as real), MeasVar(p, acc[0]), MeasVar(p, acc[1]))
  {
    NoSlope(p, ss, a, b);
    var acc, n := Accepted(0, ss), Run(p, FRESH, ss);
    var A, B := LineOffset(n), n.drift;
    t := Tilt(ErrorOf(acc[0], A, B), ErrorOf(acc[1], A, B), Line(a, b, acc[0].time as real),
              Line(a, b, acc[1].time as real), MeasVar(p, acc[0]), MeasVar(p, acc[1]));
    var k := SquareSum(p, acc, a, b);
    var x := t / (k + 1.0);
    assert x * (k + 1.0) == t;
    var A', B' := A + x * a, B + x * b;
    PlainMoves(p, ss, a, b, x, A', B');
    assert SumOfSquares(p, acc, A', B') >= SumOfSquares(p, acc, A, B);
    hide SumOfSquares, SquareSum, Run, RunDefined, Accepted, Fitted, MeasVar, Line, ErrorOf, BestPlain, Tilt, Moved;
    FlatBottom(SumOfSquares(p, acc, A', B'), SumOfSquares(p, acc, A, B), t, k, x);
  }
}
