/**
 The algebra of the two-state filter: 2x2 covariances, prediction, correction, and the quadratic
 cost whose minimum a correction finds. Nothing here knows about clocks.
 */
module Kalman {

  /** Covariance of (offset, drift). */
  datatype Cov = Cov(oo: real, od: real, dd: real)

  function Det(c: Cov): real { c.oo * c.dd - c.od * c.od }

  predicate PSD(c: Cov) { c.oo >= 0.0 && c.dd >= 0.0 && Det(c) >= 0.0 }

  predicate PD(c: Cov) { c.oo > 0.0 && c.dd > 0.0 && Det(c) > 0.0 }

  /** Covariance after dt, with process noise q on the offset and qd on the drift. */
  function Predict(c: Cov, dt: real, q: real, qd: real): Cov {
    Cov(c.oo + 2.0 * c.od * dt + c.dd * (dt * dt) + dt * q, c.od + c.dd * dt, c.dd + dt * qd)
  }

  function Scale(c: Cov, f: real): Cov { Cov(c.oo * f, c.od * f, c.dd * f) }

  /** Covariance after a measurement of the offset with variance r. */
  function Correct(c: Cov, r: real): Cov
    requires c.oo + r != 0.0
  {
    WithGains(c, Gain(c.oo, c.oo + r), Gain(c.od, c.oo + r))
  }

  function Gain(x: real, s: real): real
    requires s != 0.0
  {
    x * (1.0 / s)
  }

  function WithGains(c: Cov, k0: real, k1: real): Cov {
    Cov(c.oo - k0 * c.oo, c.od - k1 * c.oo, c.dd - k1 * c.od)
  }

  function Mul(x: real, y: real): real { x * y }

  function Sq(x: real): real { Mul(x, x) }

  lemma MulSign(x: real, y: real)
    ensures (x > 0.0 && y > 0.0) || (x < 0.0 && y < 0.0) ==> Mul(x, y) > 0.0
    ensures x == 0.0 ==> Mul(x, y) == 0.0
  {
  }

  lemma SqSign(x: real)
    ensures Sq(x) >= 0.0
    ensures Sq(x) > 0.0 <==> x != 0.0
  {
    MulSign(x, x);
  }

  // ---------------------------------------------------------------- prediction

  lemma PredictDet(c: Cov, dt: real, q: real, qd: real)
    ensures var p := Predict(c, dt, q, qd);
      && c.dd * (p.oo - dt * q) == Det(c) + (c.od + c.dd * dt) * (c.od + c.dd * dt)
      && Det(p) == Det(c) + (dt * q) * c.dd + (dt * qd) * p.oo
  {
    var a, b, d := c.oo, c.od, c.dd;
    var e := a + 2.0 * b * dt + d * (dt * dt);
    var b' := b + d * dt;
    assert d * e == (a * d - b * b) + b' * b';
    var p := Predict(c, dt, q, qd);
    assert p.oo == e + dt * q;
    assert Det(p) == (e + dt * q) * (d + dt * qd) - b' * b';
    assert (e + dt * q) * (d + dt * qd) == e * d + (dt * q) * d + (dt * qd) * (e + dt * q);
  }

  lemma PredictPSD(c: Cov, dt: real, q: real, qd: real)
    requires PSD(c) && dt > 0.0 && q >= 0.0 && qd >= 0.0
    ensures PSD(Predict(c, dt, q, qd))
    ensures PD(c) ==> PD(Predict(c, dt, q, qd))
    ensures Det(Predict(c, dt, q, qd)) >= Det(c)
  {
    PredictDet(c, dt, q, qd);
    var p := Predict(c, dt, q, qd);
    assert dt * q >= 0.0 && dt * qd >= 0.0;
    var e := p.oo - dt * q;
    var b' := c.od + c.dd * dt;
    assert b' * b' >= 0.0;
    if c.dd > 0.0 {
      PositiveFactor(c.dd, e, Det(c), b');
    } else {
      assert c.od * c.od <= 0.0;
      ZeroSquare(c.od);
      assert e == c.oo;
    }
    assert (dt * q) * c.dd >= 0.0;
    assert (dt * qd) * p.oo >= 0.0;
  }

  lemma ZeroSquare(x: real)
    requires x * x <= 0.0
    ensures x == 0.0
  {
    if x > 0.0 { SignOf(-x, x); } else if x < 0.0 { SignOf(x, -x); }
  }

  lemma PositiveFactor(d: real, e: real, g: real, b: real)
    requires d > 0.0 && g >= 0.0 && d * e == g + b * b
    ensures e >= 0.0 && (g > 0.0 ==> e > 0.0)
  {
    assert b * b >= 0.0;
    SignOf(e, d);
  }

  lemma ScaleDet(c: Cov, f: real)
    ensures Det(Scale(c, f)) == f * f * Det(c)
  {
    assert (c.oo * f) * (c.dd * f) == f * f * (c.oo * c.dd);
    assert (c.od * f) * (c.od * f) == f * f * (c.od * c.od);
    assert f * f * (c.oo * c.dd) - f * f * (c.od * c.od) == f * f * (c.oo * c.dd - c.od * c.od);
  }

  lemma ScalePSD(c: Cov, f: real)
    requires PSD(c) && f > 0.0
    ensures PSD(Scale(c, f)) && (PD(c) ==> PD(Scale(c, f)))
  {
    ScaleDet(c, f);
    assert f * f > 0.0;
    assert c.oo * f >= 0.0 && c.dd * f >= 0.0;
    assert f * f * Det(c) >= 0.0;
    if PD(c) { assert c.oo * f > 0.0 && c.dd * f > 0.0 && f * f * Det(c) > 0.0; }
  }

  // ---------------------------------------------------------------- correction

  /** The correction in closed form; the determinant shrinks by exactly r/S. */
  lemma CorrectForm(c: Cov, r: real)
    requires c.oo + r > 0.0
    ensures var s := c.oo + r; var n := Correct(c, r);
      && n.oo * s == c.oo * r
      && n.od * s == c.od * r
      && n.dd * s == Det(c) + c.dd * r
      && Det(n) * s == Det(c) * r
  {
    var a, b, d, s := c.oo, c.od, c.dd, c.oo + r;
    var i := 1.0 / s;
    assert i * s == 1.0;
    var n := Correct(c, r);
    assert n == Cov(a - (a * i) * a, b - (b * i) * a, d - (b * i) * b);
    assert n.oo * s == a * s - a * a * (i * s) == a * s - a * a;
    assert n.od * s == b * s - b * a * (i * s) == b * s - b * a;
    assert n.dd * s == d * s - b * b * (i * s) == d * s - b * b;
    assert a * s - a * a == a * r;
    assert b * s - b * a == b * r;
    // det: n.oo = a*r*i, n.od = b*r*i
    assert n.oo == a * r * i by { ScaleOut(n.oo, s, i, a * r); }
    assert n.od == b * r * i by { ScaleOut(n.od, s, i, b * r); }
    assert Det(n) * s == n.oo * (n.dd * s) - n.od * (n.od * s);
    assert n.oo * (n.dd * s) - n.od * (n.od * s)
        == (a * r * i) * (d * s - b * b) - (b * r * i) * (b * r);
    assert (a * r * i) * (d * s - b * b) - (b * r * i) * (b * r)
        == (r * i) * (a * (d * s - b * b) - b * (b * r));
    assert a * (d * s - b * b) - b * (b * r) == (a * d - b * b) * s;
    assert (r * i) * ((a * d - b * b) * s) == r * (a * d - b * b) * (i * s);
  }

  lemma ScaleOut(x: real, s: real, i: real, y: real)
    requires i * s == 1.0 && x * s == y
    ensures x == y * i
  {
    assert y * i == x * (i * s);
  }

  lemma CorrectPSD(c: Cov, r: real)
    requires PSD(c) && r >= 0.0 && c.oo + r > 0.0
    ensures PSD(Correct(c, r))
    ensures PD(c) && r > 0.0 ==> PD(Correct(c, r))
    ensures Correct(c, r).oo <= c.oo && Correct(c, r).oo <= r
  {
    CorrectForm(c, r);
    var s, n := c.oo + r, Correct(c, r);
    assert c.oo * r >= 0.0 && c.dd * r >= 0.0 && Det(c) * r >= 0.0;
    SignOf(n.oo, s); SignOf(n.dd, s); SignOf(Det(n), s);
    if PD(c) && r > 0.0 { assert c.oo * r > 0.0 && c.dd * r > 0.0 && Det(c) * r > 0.0; }
    assert (c.oo - n.oo) * s == c.oo * c.oo >= 0.0;
    assert (r - n.oo) * s == r * r >= 0.0;
    SignOf(c.oo - n.oo, s); SignOf(r - n.oo, s);
  }

  lemma SignOf(x: real, s: real)
    requires s > 0.0
    ensures x * s >= 0.0 ==> x >= 0.0
    ensures x * s > 0.0 ==> x > 0.0
  {
    if x < 0.0 { assert x * s < 0.0; }
    if x == 0.0 { assert x * s == 0.0; }
  }

  // ---------------------------------------------------------------- the quadratic cost

  /** The squared Mahalanobis distance of (u, v) under c. */
  function Cost(c: Cov, u: real, v: real): real
    requires Det(c) != 0.0
  {
    (c.dd * u * u - 2.0 * c.od * u * v + c.oo * v * v) / Det(c)
  }

  /** Sylvester: a times the numerator is a sum of squares. */
  lemma CompleteSquare(a: real, b: real, d: real, u: real, v: real)
    ensures a * (d * u * u - 2.0 * b * u * v + a * v * v)
         == (a * d - b * b) * (u * u) + (a * v - b * u) * (a * v - b * u)
  {
    assert (a * v - b * u) * (a * v - b * u) == a * a * v * v - 2.0 * a * b * u * v + b * b * u * u;
  }

  lemma CostPositive(c: Cov, u: real, v: real)
    requires PD(c)
    ensures Cost(c, u, v) >= 0.0
    ensures Cost(c, u, v) == 0.0 <==> u == 0.0 && v == 0.0
  {
    var a, g := c.oo, Det(c);
    var n := c.dd * u * u - 2.0 * c.od * u * v + a * v * v;
    var w := a * v - c.od * u;
    var k := Cost(c, u, v);
    CompleteSquare(a, c.od, c.dd, u, v);
    assert k * g == n;
    TwoSquares(a, g, n, u, w);
    SignOf(k, g);
    if k == 0.0 {
      assert u == 0.0 && w == 0.0;
      assert a * v == 0.0;
      assert v == 0.0;
    }
  }

  lemma TwoSquares(a: real, g: real, n: real, u: real, w: real)
    requires a > 0.0 && g > 0.0 && a * n == g * (u * u) + w * w
    ensures n >= 0.0
    ensures n == 0.0 ==> u == 0.0 && w == 0.0
  {
    assert u * u >= 0.0 && w * w >= 0.0;
    assert g * (u * u) >= 0.0;
    SignOf(n, a);
    if n == 0.0 {
      ZeroSquare(w);
      SignOf(-(u * u), g);
      ZeroSquare(u);
    }
  }

  /** Noise-free prediction only changes coordinates. */
  lemma PredictCost(c: Cov, dt: real, u: real, v: real)
    requires Det(c) != 0.0
    ensures var p := Predict(c, dt, 0.0, 0.0);
      Det(p) == Det(c) && Cost(p, u + v * dt, v) == Cost(c, u, v)
  {
    PredictDet(c, dt, 0.0, 0.0);
    var a, b, d := c.oo, c.od, c.dd;
    var p := Predict(c, dt, 0.0, 0.0);
    var w := u + v * dt;
    assert p == Cov(a + 2.0 * b * dt + d * (dt * dt), b + d * dt, d);
    assert d * w * w == d * u * u + 2.0 * (d * u * v * dt) + d * v * v * dt * dt;
    assert p.od * w * v == b * u * v + b * v * v * dt + d * u * v * dt + d * v * v * dt * dt;
    assert p.oo * v * v == a * v * v + 2.0 * (b * v * v * dt) + d * v * v * dt * dt;
  }

  /** The numerator of Cost. */
  function Form(a: real, b: real, d: real, u: real, v: real): real {
    d * u * u - 2.0 * b * u * v + a * v * v
  }

  /** What Cost means without the division. */
  lemma CostIs(c: Cov, u: real, v: real, k: real)
    requires Det(c) != 0.0
    ensures k * Det(c) == Form(c.oo, c.od, c.dd, u, v) <==> k == Cost(c, u, v)
  {
    var l := Cost(c, u, v);
    assert l * Det(c) == Form(c.oo, c.od, c.dd, u, v);
    if k * Det(c) == l * Det(c) { CancelRight(k, l, Det(c)); }
  }

  /** Inflating a covariance by f discounts its cost by f. */
  lemma ScaleCost(c: Cov, f: real, u: real, v: real)
    requires Det(c) != 0.0 && f > 0.0
    ensures Det(Scale(c, f)) != 0.0
    ensures Cost(Scale(c, f), u, v) == Cost(c, u, v) / f
  {
    ScaleDet(c, f);
    NonZeroProduct(f, Det(c)); NonZeroProduct(f, f * Det(c));
    assert f * f * Det(c) == f * (f * Det(c));
    var k := Cost(c, u, v);
    CostIs(c, u, v, k);
    var q := k / f;
    assert q * f == k;
    ScaleForm(c.oo, c.od, c.dd, f, u, v);
    ScaleProduct(f, q, k, Det(c));
    CostIs(Scale(c, f), u, v, q);
  }

  lemma ScaleForm(a: real, b: real, d: real, f: real, u: real, v: real)
    ensures Form(a * f, b * f, d * f, u, v) == f * Form(a, b, d, u, v)
  {
  }

  lemma ScaleProduct(f: real, q: real, k: real, g: real)
    requires q * f == k
    ensures q * (f * f * g) == f * (k * g)
  {
    assert q * (f * f * g) == (q * f) * (f * g);
  }

  lemma NonZeroProduct(x: real, y: real)
    requires x != 0.0 && y != 0.0
    ensures x * y != 0.0
  {
    if x * y == 0.0 { assert (1.0 / x) * (x * y) == ((1.0 / x) * x) * y == y; }
  }

  lemma CancelRight(x: real, y: real, z: real)
    requires z != 0.0 && x * z == y * z
    ensures x == y
  {
    assert (x - y) * z == 0.0;
    if x - y != 0.0 { NonZeroProduct(x - y, z); }
  }

  /** The square of an error, in units of its variance. */
  function Loss(e: real, r: real): real
    requires r != 0.0
  {
    e * e / r
  }

  /** A correction adds the information of one measurement. */
  lemma CorrectInformation(c: Cov, r: real, u: real, v: real)
    requires PD(c) && r > 0.0
    ensures Det(Correct(c, r)) > 0.0
    ensures Cost(Correct(c, r), u, v) == Cost(c, u, v) + Loss(u, r)
  {
    hide Cost, Det, Loss, Correct;
    CorrectPSD(c, r);
    CorrectForm(c, r);
    InformationAdds(c, Correct(c, r), r, c.oo + r, u, v);
  }

  lemma InformationAdds(c: Cov, n: Cov, r: real, s: real, u: real, v: real)
    requires Det(c) != 0.0 && Det(n) != 0.0 && r != 0.0 && s != 0.0
    requires n.oo * s == c.oo * r && n.od * s == c.od * r && n.dd * s == Det(c) + c.dd * r && Det(n) * s == Det(c) * r
    ensures Cost(n, u, v) == Cost(c, u, v) + Loss(u, r)
  {
    hide Cost, Det, Loss, Form;
    var k, q := Cost(c, u, v), Loss(u, r);
    CostIs(c, u, v, k);
    LossTimes(u, r);
    InformationForm(c.oo, c.od, c.dd, n.oo, n.od, n.dd, r, s, Det(c), u, v);
    InformationSum(k, q, r, Det(c), Det(n), s, Form(c.oo, c.od, c.dd, u, v), Form(n.oo, n.od, n.dd, u, v), u * u);
    CostIs(n, u, v, k + q);
  }

  lemma LossTimes(e: real, r: real)
    requires r != 0.0
    ensures Loss(e, r) * r == e * e
  {
  }

  lemma InformationForm(a: real, b: real, d: real, a': real, b': real, d': real,
                        r: real, s: real, g: real, u: real, v: real)
    requires a' * s == a * r && b' * s == b * r && d' * s == g + d * r
    ensures Form(a', b', d', u, v) * s == g * (u * u) + r * Form(a, b, d, u, v)
  {
    assert Form(a', b', d', u, v) * s == (d' * s) * (u * u) - 2.0 * (b' * s) * (u * v) + (a' * s) * (v * v);
  }

  lemma InformationSum(k: real, q: real, r: real, g: real, g': real, s: real, n: real, n': real, uu: real)
    requires s != 0.0 && k * g == n && q * r == uu && g' * s == g * r && n' * s == g * uu + r * n
    ensures (k + q) * g' == n'
  {
    assert (k + q) * g' * s == (k + q) * (g' * s);
    assert (k + q) * (g * r) == (k * g) * r + (q * r) * g;
    CancelRight((k + q) * g', n', s);
  }

  /** Moving the centre of the cost along the gain direction by w. */
  lemma ShiftCost(c: Cov, w: real, u: real, v: real)
    requires Det(c) != 0.0
    ensures Cost(c, u - c.oo * w, v - c.od * w) == Cost(c, u, v) + (c.oo * w * w - 2.0 * u * w)
  {
    var u', v', t := u - c.oo * w, v - c.od * w, c.oo * w * w - 2.0 * u * w;
    assert Det(c) == c.oo * c.dd - c.od * c.od;
    hide Cost, Form, Det;
    ShiftForm(c.oo, c.od, c.dd, w, u, v, u', v', t, Det(c));
    CostBetween(c, u, v, u', v', t);
  }

  lemma CostBetween(c: Cov, u: real, v: real, u': real, v': real, t: real)
    requires Det(c) != 0.0 && Form(c.oo, c.od, c.dd, u', v') == Form(c.oo, c.od, c.dd, u, v) + t * Det(c)
    ensures Cost(c, u', v') == Cost(c, u, v) + t
  {
    hide Cost, Form, Det;
    var k := Cost(c, u, v);
    CostIs(c, u, v, k);
    AddProduct(k, t, Det(c), Form(c.oo, c.od, c.dd, u, v), Form(c.oo, c.od, c.dd, u', v'));
    CostIs(c, u', v', k + t);
  }

  lemma AddProduct(k: real, t: real, g: real, n: real, n': real)
    requires k * g == n && n' == n + t * g
    ensures (k + t) * g == n'
  {
  }

  lemma ShiftForm(a: real, b: real, d: real, w: real, u: real, v: real, u': real, v': real, t: real, g: real)
    requires u' == u - a * w && v' == v - b * w && t == a * w * w - 2.0 * u * w && g == a * d - b * b
    ensures Form(a, b, d, u', v') == Form(a, b, d, u, v) + t * g
  {
  }

  /**
   The correction is the minimiser: for every point, predicted cost plus the measurement's squared
   error equals the corrected cost plus a term that does not depend on the point.
   */
  lemma CorrectCost(c: Cov, r: real, w: real, z: real, u: real, v: real)
    requires PD(c) && r > 0.0 && w * (c.oo + r) == z
    ensures Det(Correct(c, r)) > 0.0
    ensures Cost(c, u, v) + Loss(z - u, r)
         == Cost(Correct(c, r), u - c.oo * w, v - c.od * w) + Loss(z, c.oo + r)
  {
    hide Cost, Correct, Det, Loss;
    LossSplits(c.oo, r, w, z, u);
    CorrectInformation(c, r, u - c.oo * w, v - c.od * w);
    ShiftCost(c, w, u, v);
  }

  lemma LossSplits(a: real, r: real, w: real, z: real, u: real)
    requires r != 0.0 && a + r != 0.0 && w * (a + r) == z
    ensures Loss(z - u, r) == Loss(u - a * w, r) + (a * w * w - 2.0 * u * w) + Loss(z, a + r)
  {
    hide Loss;
    var j := 1.0 / r;
    assert j * r == 1.0;
    LossIs(u - a * w, r, j); LossIs(z - u, r, j); LossOf(z, a + r, w);
    assert z * j == w + w * (a * j) by { assert z * j == w * (a * j) + w * (j * r); }
    Residuals(a, j, z, w, u, u - a * w, z - u);
  }

  lemma Residuals(a: real, j: real, z: real, w: real, u: real, u': real, e: real)
    requires z * j == w + w * (a * j) && u' == u - a * w && e == z - u
    ensures e * e * j == u' * u' * j + (a * w * w - 2.0 * u * w) + z * w
  {
    var h := a * j;
    assert u' * u' * j == u * u * j - 2.0 * (u * w * h) + a * w * (w * h);
    assert e * e * j == z * (z * j) - 2.0 * u * (z * j) + u * u * j;
    assert z * (z * j) == z * w + a * w * (z * j) by { assert z * (w * h) == a * w * (z * j); }
  }

  lemma LossIs(e: real, r: real, i: real)
    requires i * r == 1.0
    ensures r != 0.0 && Loss(e, r) == e * e * i
  {
    assert r != 0.0;
    Quotient(e * e, r);
    CancelRight(i, 1.0 / r, r);
  }

  lemma Quotient(x: real, r: real)
    requires r != 0.0
    ensures x / r == x * (1.0 / r)
  {
    var q, i := x / r, 1.0 / r;
    assert q * r == x && i * r == 1.0;
    assert (x * i) * r == x * (i * r);
    CancelRight(q, x * i, r);
  }

  lemma LossOf(z: real, s: real, w: real)
    requires s != 0.0 && w * s == z
    ensures Loss(z, s) == z * w
  {
    assert (z * w) * s == z * (w * s);
    CancelRight(z * z / s, z * w, s);
  }
}
