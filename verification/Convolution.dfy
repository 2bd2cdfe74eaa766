/**
 Process noise in the algebra of the filter: adding variance to a covariance is letting the estimated quantity jump, at
 the cost of the jump squared over the variance, and taking the cheapest jump.
 */
module Convolutions {
  import opened Numbers
  import opened Kalman
  import opened TimeFilters

  function NoisyDrift(c: Cov, g: real): Cov { Cov(c.oo, c.od, c.dd + g) }

  function NoisyOffset(c: Cov, h: real): Cov { Cov(c.oo + h, c.od, c.dd) }

  /** What a jump by x costs under variance n; without noise nothing jumps. */
  function JumpCost(x: real, n: real): real { if n == 0.0 then 0.0 else Loss(x, n) }

  lemma NoisyDriftDet(c: Cov, g: real)
    requires PD(c) && g >= 0.0
    ensures PD(NoisyDrift(c, g)) && Det(NoisyDrift(c, g)) == Det(c) + c.oo * g
  {
    ProductNonnegative(c.oo, g);
    assert c.oo * (c.dd + g) == c.oo * c.dd + c.oo * g;
  }

  /** The cheapest drift jump that ends at (u, v). */
  function DriftJump(c: Cov, g: real, u: real, v: real): real {
    if Det(NoisyDrift(c, g)) == 0.0 then 0.0 else Lean(c.oo, c.od, g, u, v, Det(NoisyDrift(c, g)))
  }

  function Lean(a: real, b: real, g: real, u: real, v: real, E: real): real
    requires E != 0.0
  {
    g * (a * v - b * u) / E
  }

  lemma ProductNonnegative(x: real, y: real)
    requires x >= 0.0 && y >= 0.0
    ensures x * y >= 0.0
  {
  }

  /** What a jump by s loses against the cheapest one is a square. */
  lemma JumpDeficit(a: real, b: real, d: real, g: real, u: real, v: real, s: real, D: real, E: real, X: real,
                    f0: real, f1: real, z: real)
    requires D == a * d - b * b && E == D + a * g && X == a * v - b * u && z == E * s - g * X
    requires f0 == Form(a, b, d, u, v - s) && f1 == Form(a, b, d + g, u, v)
    ensures f0 * (g * E) + s * s * (D * E) - f1 * (D * g) == z * z
  {
    FormDeficit(a, b, d, g, u, v, s, D, X);
    Combine(a, g, u, s, D, E, X, Form(a, b, d, u, v), f0, f1, z);
  }

  lemma Combine(a: real, g: real, u: real, s: real, D: real, E: real, X: real, f: real, f0: real, f1: real, z: real)
    requires E == D + a * g && z == E * s - g * X && a * f - D * u * u == X * X
    requires f0 == f - 2.0 * s * X + a * s * s && f1 == f + g * u * u
    ensures f0 * (g * E) + s * s * (D * E) - f1 * (D * g) == z * z
  {
    var x, y, w := g * E, D * E, D * g;
    assert f0 * x + s * s * y - f1 * w == f * (x - w) - 2.0 * s * X * x + s * s * (a * x + y) - g * u * u * w;
    assert x - w == a * g * g;
    assert a * x + y == E * E by { assert a * (g * E) + D * E == (a * g + D) * E; }
    Remainders(a, g, u, D, f, X);
    assert z * z == s * s * (E * E) - 2.0 * s * X * (g * E) + g * g * (X * X);
  }

  lemma Remainders(a: real, g: real, u: real, D: real, f: real, X: real)
    requires a * f - D * u * u == X * X
    ensures f * (a * g * g) - g * u * u * (D * g) == g * g * (X * X)
  {
    assert f * (a * g * g) - g * u * u * (D * g) == g * g * (a * f - D * u * u);
  }

  lemma FormDeficit(a: real, b: real, d: real, g: real, u: real, v: real, s: real, D: real, X: real)
    requires D == a * d - b * b && X == a * v - b * u
    ensures Form(a, b, d, u, v - s) == Form(a, b, d, u, v) - 2.0 * s * X + a * s * s
    ensures Form(a, b, d + g, u, v) == Form(a, b, d, u, v) + g * u * u
    ensures a * Form(a, b, d, u, v) - D * u * u == X * X
  {
  }

  /** Drift noise: the noisy cost is the least cost over all jumps, and one jump attains it. */
  lemma DriftNoise(c: Cov, g: real, u: real, v: real, s: real)
    requires PD(c) && g > 0.0
    ensures PD(NoisyDrift(c, g))
    ensures Cost(c, u, v - s) + Loss(s, g) >= Cost(NoisyDrift(c, g), u, v)
    ensures Cost(c, u, v - s) + Loss(s, g) == Cost(NoisyDrift(c, g), u, v) <==> s == DriftJump(c, g, u, v)
  {
    hide Cost, Loss, Det, PD, Form, Lean;
    NoisyDriftDet(c, g);
    DetIs(c);
    PositiveDet(c);
    PositiveDet(NoisyDrift(c, g));
    var n := NoisyDrift(c, g);
    var D, E := Det(c), Det(n);
    var k, k', l := Cost(c, u, v - s), Cost(n, u, v), Loss(s, g);
    CostIs(c, u, v - s, k);
    CostIs(n, u, v, k');
    LossTimes(s, g);
    JumpLoss(c.oo, c.od, c.dd, g, u, v, s, D, E, k, l, k');
  }

  lemma JumpLoss(a: real, b: real, d: real, g: real, u: real, v: real, s: real, D: real, E: real,
                 k: real, l: real, k': real)
    requires D == a * d - b * b && E == D + a * g && D > 0.0 && E > 0.0 && g > 0.0
    requires k * D == Form(a, b, d, u, v - s) && k' * E == Form(a, b, d + g, u, v) && l * g == s * s
    ensures k + l >= k' && (k + l == k' <==> s == Lean(a, b, g, u, v, E))
  {
    var X := a * v - b * u;
    var z := E * s - g * X;
    var f0, f1 := Form(a, b, d, u, v - s), Form(a, b, d + g, u, v);
    JumpDeficit(a, b, d, g, u, v, s, D, E, X, f0, f1, z);
    BestJump(E, s, g, X, z);
    assert Lean(a, b, g, u, v, E) == g * X / E;
    hide *;
    Deficit(k, l, k', D, E, g, s, f0, f1, z);
  }

  lemma DetIs(c: Cov)
    ensures Det(c) == c.oo * c.dd - c.od * c.od
  {
  }

  lemma Deficit(k: real, l: real, k': real, D: real, E: real, g: real, s: real, f: real, f': real, z: real)
    requires D > 0.0 && E > 0.0 && g > 0.0 && k * D == f && k' * E == f' && l * g == s * s
    requires f * (g * E) + s * s * (D * E) - f' * (D * g) == z * z
    ensures k + l >= k' && (k + l == k' <==> z == 0.0)
  {
    var w := D * g * E;
    ProductPositive(D, g); ProductPositive(D * g, E);
    assert k * w == f * (g * E) && l * w == s * s * (D * E) && k' * w == f' * (D * g) by {
      assert k * (D * g * E) == (k * D) * (g * E);
      assert l * (D * g * E) == (l * g) * (D * E);
      assert k' * (D * g * E) == (k' * E) * (D * g);
    }
    var e := k + l - k';
    assert e * w == z * z;
    SqSign(z);
    assert Sq(z) == z * z;
    SignOf(e, w);
    if e == 0.0 { assert z * z == 0.0; }
    if z == 0.0 { CancelRight(e, 0.0, w); }
  }

  lemma BestJump(E: real, s: real, g: real, X: real, z: real)
    requires E != 0.0 && z == E * s - g * X
    ensures z == 0.0 <==> s == g * X / E
  {
    var q := g * X / E;
    assert q * E == g * X;
    if z == 0.0 { CancelRight(s, q, E); }
  }

  // ---------------------------------------------------------------- offset noise: the names swapped

  function Swap(c: Cov): Cov { Cov(c.dd, c.od, c.oo) }

  lemma SwapCost(c: Cov, u: real, v: real)
    ensures Det(Swap(c)) == Det(c) && (PD(Swap(c)) <==> PD(c))
    ensures Det(c) != 0.0 ==> Cost(Swap(c), v, u) == Cost(c, u, v)
  {
    if Det(c) != 0.0 {
      var k := Cost(c, u, v);
      CostIs(c, u, v, k);
      assert Form(c.dd, c.od, c.oo, v, u) == Form(c.oo, c.od, c.dd, u, v);
      assert Det(Swap(c)) == Det(c);
      CostIs(Swap(c), v, u, k);
    }
  }

  /** The cheapest offset jump that ends at (u, v). */
  function OffsetJump(c: Cov, h: real, u: real, v: real): real { DriftJump(Swap(c), h, v, u) }

  lemma OffsetNoise(c: Cov, h: real, u: real, v: real, w: real)
    requires PD(c) && h > 0.0
    ensures PD(NoisyOffset(c, h))
    ensures Cost(c, u - w, v) + Loss(w, h) >= Cost(NoisyOffset(c, h), u, v)
    ensures Cost(c, u - w, v) + Loss(w, h) == Cost(NoisyOffset(c, h), u, v) <==> w == OffsetJump(c, h, u, v)
  {
    hide Cost, Loss, Det, PD, DriftJump;
    SwapCost(c, u - w, v);
    DriftNoise(Swap(c), h, v, u, w);
    assert NoisyDrift(Swap(c), h) == Swap(NoisyOffset(c, h));
    SwapCost(NoisyOffset(c, h), u, v);
    PositiveDet(c);
    PositiveDet(NoisyOffset(c, h));
  }

  lemma PositiveDet(c: Cov)
    ensures PD(c) ==> Det(c) > 0.0
  {
  }

  // ---------------------------------------------------------------- with or without noise

  lemma DriftMayJump(c: Cov, g: real, u: real, v: real, s: real)
    requires PD(c) && g >= 0.0 && (g == 0.0 ==> s == 0.0)
    ensures PD(NoisyDrift(c, g))
    ensures Cost(c, u, v - s) + JumpCost(s, g) >= Cost(NoisyDrift(c, g), u, v)
    ensures Cost(c, u, v - s) + JumpCost(s, g) == Cost(NoisyDrift(c, g), u, v) <==> s == DriftJump(c, g, u, v)
  {
    NoisyDriftDet(c, g);
    if g > 0.0 {
      DriftNoise(c, g, u, v, s);
    } else {
      assert NoisyDrift(c, g) == c;
      NoJump(c, g, u, v);
      hide Cost, DriftJump;
    }
  }

  lemma NoJump(c: Cov, g: real, u: real, v: real)
    requires g == 0.0
    ensures DriftJump(c, g, u, v) == 0.0
  {
    var x := c.oo * v - c.od * u;
    assert g * x == 0.0;
  }

  lemma OffsetMayJump(c: Cov, h: real, u: real, v: real, w: real)
    requires PD(c) && h >= 0.0 && (h == 0.0 ==> w == 0.0)
    ensures PD(NoisyOffset(c, h))
    ensures Cost(c, u - w, v) + JumpCost(w, h) >= Cost(NoisyOffset(c, h), u, v)
    ensures Cost(c, u - w, v) + JumpCost(w, h) == Cost(NoisyOffset(c, h), u, v) <==> w == OffsetJump(c, h, u, v)
  {
    if h > 0.0 {
      OffsetNoise(c, h, u, v, w);
    } else {
      assert NoisyOffset(c, h) == c;
      NoJump(Swap(c), h, v, u);
      hide Cost, DriftJump;
    }
  }

  // ---------------------------------------------------------------- one prediction

  /** A jump of the offset and of the drift. */
  datatype Jump = Jump(w: real, s: real)

  /** The cheapest jump that ends a prediction over dt at (u, v). */
  function CheapestJump(c: Cov, dt: real, q: real, qd: real, u: real, v: real): Jump {
    var c0 := Predict(c, dt, 0.0, 0.0);
    var w := OffsetJump(NoisyDrift(c0, dt * qd), dt * q, u, v);
    Jump(w, DriftJump(c0, dt * qd, u - w, v))
  }

  function PredictionCost(j: Jump, dt: real, q: real, qd: real): real { JumpCost(j.s, dt * qd) + JumpCost(j.w, dt * q) }

  /** Prediction with noise keeps the least cost over all jumps. */
  lemma PredictionJumps(c: Cov, dt: real, q: real, qd: real, u: real, v: real, j: Jump, u': real, v': real)
    requires PD(c) && dt > 0.0 && q >= 0.0 && qd >= 0.0
    requires (q == 0.0 ==> j.w == 0.0) && (qd == 0.0 ==> j.s == 0.0)
    requires u' == u + v * dt + j.w && v' == v + j.s
    ensures PD(Predict(c, dt, q, qd))
    ensures Cost(c, u, v) + PredictionCost(j, dt, q, qd) >= Cost(Predict(c, dt, q, qd), u', v')
    ensures Cost(c, u, v) + PredictionCost(j, dt, q, qd) == Cost(Predict(c, dt, q, qd), u', v') <==>
      j == CheapestJump(c, dt, q, qd, u', v')
  {
    PDSigns(c);
    PredictPSD(c, dt, 0.0, 0.0);
    PredictCost(c, dt, u, v);
    PredictInParts(c, dt, q, qd);
    ProductNonnegative(dt, q); ProductNonnegative(dt, qd);
    if dt * q == 0.0 { ZeroNoise(dt, q); }
    if dt * qd == 0.0 { ZeroNoise(dt, qd); }
    hide *;
    TwoJumps(Predict(c, dt, 0.0, 0.0), dt * qd, dt * q, u + v * dt, v, j, u', v');
    PredictionParts(c, dt, q, qd, u', v', j);
  }

  lemma PredictionParts(c: Cov, dt: real, q: real, qd: real, u: real, v: real, j: Jump)
    ensures PredictionCost(j, dt, q, qd) == JumpCost(j.s, dt * qd) + JumpCost(j.w, dt * q)
    ensures var c0, w := Predict(c, dt, 0.0, 0.0), CheapestJump(c, dt, q, qd, u, v).w;
      && w == OffsetJump(NoisyDrift(c0, dt * qd), dt * q, u, v)
      && CheapestJump(c, dt, q, qd, u, v) == Jump(w, DriftJump(c0, dt * qd, u - w, v))
  {
    hide JumpCost, DriftJump, OffsetJump, Predict, NoisyDrift;
  }

  lemma TwoJumps(c: Cov, g: real, h: real, u: real, v: real, j: Jump, u': real, v': real)
    requires PD(c) && g >= 0.0 && h >= 0.0 && (h == 0.0 ==> j.w == 0.0) && (g == 0.0 ==> j.s == 0.0)
    requires u' == u + j.w && v' == v + j.s
    ensures var n := NoisyOffset(NoisyDrift(c, g), h); var w := OffsetJump(NoisyDrift(c, g), h, u', v');
      && PD(n) && Det(n) > 0.0 && Det(c) > 0.0
      && Cost(c, u, v) + (JumpCost(j.s, g) + JumpCost(j.w, h)) >= Cost(n, u', v')
      && (Cost(c, u, v) + (JumpCost(j.s, g) + JumpCost(j.w, h)) == Cost(n, u', v') <==>
          j == Jump(w, DriftJump(c, g, u' - w, v')))
  {
    hide Cost, Det, PD, DriftJump, NoisyDrift, NoisyOffset, JumpCost, OffsetJump;
    var c1 := NoisyDrift(c, g);
    PositiveDet(c);
    assert u == u' - j.w && v == v' - j.s;
    DriftMayJump(c, g, u, v', j.s);
    PositiveDet(c1);
    OffsetMayJump(c1, h, u', v', j.w);
    PositiveDet(NoisyOffset(c1, h));
  }

  lemma ZeroNoise(dt: real, q: real)
    requires dt > 0.0 && dt * q == 0.0
    ensures q == 0.0
  {
    if q > 0.0 { ProductPositive(dt, q); } else if q < 0.0 { ProductPositive(dt, -q); }
  }

  lemma PredictInParts(c: Cov, dt: real, q: real, qd: real)
    ensures Predict(c, dt, q, qd) == NoisyOffset(NoisyDrift(Predict(c, dt, 0.0, 0.0), dt * qd), dt * q)
  {
  }
}
