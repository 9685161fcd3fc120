/** The overlap formula is geometry: two footprints overlap exactly if they have an inner point in common. */
module Overlap {
  import opened SpatialIndex

  /** (zx, zy) lies inside the circle of radius r around (cx, cy). */
  predicate Within(cx: real, cy: real, r: real, zx: real, zy: real) {
    (zx - cx) * (zx - cx) + (zy - cy) * (zy - cy) < r * r
  }

  /** Some point lies inside both. */
  ghost predicate ShareAPoint(p: Disc, x: real, y: real, r: real) {
    exists zx: real, zy: real :: Within(p.x, p.y, p.r, zx, zy) && Within(x, y, r, zx, zy)
  }

  // ---- from the formula to a point ----

  lemma SquareOfScaled(t: real, d: real)
    ensures (t * d) * (t * d) == (t * t) * (d * d)
  {
    assert (t * d) * (t * d) == t * (d * (t * d));
    assert d * (t * d) == t * (d * d);
    assert t * (t * (d * d)) == (t * t) * (d * d);
  }

  lemma Factor(k: real, u: real, v: real)
    ensures k * u + k * v == k * (u + v)
  {
  }

  /** A displacement shorter than s, scaled by t, is shorter than t * s. */
  lemma ScaledShorter(t: real, s: real, q: real, dx: real, dy: real)
    requires t > 0.0 && t * s == q && dx * dx + dy * dy < s * s
    ensures (t * dx) * (t * dx) + (t * dy) * (t * dy) < q * q
  {
    ScaledLength(t, dx, dy);
    SquareOfScaled(t, s);
    SquareScaleLess(t, dx * dx + dy * dy, s * s, (t * dx) * (t * dx) + (t * dy) * (t * dy), q * q);
  }

  lemma ScaledLength(t: real, dx: real, dy: real)
    ensures (t * dx) * (t * dx) + (t * dy) * (t * dy) == (t * t) * (dx * dx + dy * dy)
  {
    SquareOfScaled(t, dx);
    SquareOfScaled(t, dy);
    Factor(t * t, dx * dx, dy * dy);
  }

  lemma SquareScaleLess(t: real, u: real, v: real, uu: real, vv: real)
    requires t > 0.0 && u < v && uu == (t * t) * u && vv == (t * t) * v
    ensures uu < vv
  {
    ScaleLess(u, v, t);
    ScaleLess(t * u, t * v, t);
    assert t * (t * u) == (t * t) * u && t * (t * v) == (t * t) * v;
  }

  lemma ScaleLess(u: real, v: real, k: real)
    requires k > 0.0 && u < v
    ensures k * u < k * v
  {
    ScaleStrict(u, v, k);
    assert k * u == u * k && k * v == v * k;
  }

  /** The point that divides the way between the centres as the radii do. */
  lemma DividingPoint(p: Disc, x: real, y: real, r: real) returns (zx: real, zy: real)
    requires p.r > 0.0 && r > 0.0 && Touches(p, x, y, r)
    ensures Within(p.x, p.y, p.r, zx, zy) && Within(x, y, r, zx, zy)
  {
    var s := r + p.r;
    var t, u := p.r / s, r / s;
    var dx, dy := x - p.x, y - p.y;
    Shares(p.r, r);
    zx, zy := p.x + t * dx, p.y + t * dy;
    ScaledShorter(t, s, p.r, dx, dy);
    NegatedSquares(dx, dy);
    ScaledShorter(u, s, r, -dx, -dy);
    Reached(p.x, p.y, p.r, zx, zy, t * dx, t * dy);
    Remaining(dx, t, u);
    Remaining(dy, t, u);
    Reached(x, y, r, zx, zy, u * -dx, u * -dy);
  }

  lemma Shares(q: real, r: real)
    requires q > 0.0 && r > 0.0
    ensures var s := r + q; q / s > 0.0 && r / s > 0.0 && q / s + r / s == 1.0 && q / s * s == q && r / s * s == r
  {
    var s := r + q;
    DivideLess(0.0, q, s);
    DivideLess(0.0, r, s);
    assert q / s + r / s == s / s;
  }

  lemma NegatedSquares(dx: real, dy: real)
    ensures (-dx) * (-dx) + (-dy) * (-dy) == dx * dx + dy * dy
  {
  }

  lemma Remaining(d: real, t: real, u: real)
    requires t + u == 1.0
    ensures t * d - d == u * -d
  {
    assert (t + u) * d == t * d + u * d;
    assert u * -d == -(u * d);
  }

  lemma Reached(cx: real, cy: real, r: real, zx: real, zy: real, ex: real, ey: real)
    requires zx - cx == ex && zy - cy == ey && ex * ex + ey * ey < r * r
    ensures Within(cx, cy, r, zx, zy)
  {
  }

  // ---- from a point to the formula ----

  lemma NonNegativeSquare(d: real)
    ensures d * d >= 0.0
  {
  }

  lemma MeanOfSquares(a: real, b: real)
    ensures 2.0 * (a * b) <= a * a + b * b
  {
    NonNegativeSquare(a - b);
    assert (a - b) * (a - b) == a * a - 2.0 * (a * b) + b * b;
  }

  /** The inner product of two vectors shorter than 1 is below 1. */
  lemma UnitInner(ux: real, uy: real, wx: real, wy: real)
    requires ux * ux + uy * uy < 1.0 && wx * wx + wy * wy < 1.0
    ensures ux * wx + uy * wy < 1.0
  {
    MeanOfSquares(ux, wx);
    MeanOfSquares(uy, wy);
  }

  lemma Inverse(q: real) returns (t: real)
    requires q > 0.0
    ensures t > 0.0 && t * q == 1.0
  {
    t := 1.0 / q;
  }

  lemma Unscale(t: real, q: real, u: real)
    requires t * q == 1.0
    ensures q * (t * u) == u
  {
    assert q * (t * u) == (t * q) * u;
  }

  lemma ProductOfScaled(q: real, r: real, a: real, b: real, u: real, w: real)
    requires q * a == u && r * b == w
    ensures u * w == (r * q) * (a * b)
  {
    assert (q * a) * (r * b) == q * (a * (r * b));
    assert a * (r * b) == r * (a * b);
    assert q * (r * (a * b)) == (r * q) * (a * b);
  }

  /** The inner product of a vector shorter than q and one shorter than r is below r * q. */
  lemma InnerBelow(q: real, r: real, ux: real, uy: real, wx: real, wy: real)
    requires q > 0.0 && r > 0.0
    requires ux * ux + uy * uy < q * q && wx * wx + wy * wy < r * r
    ensures ux * wx + uy * wy < r * q
  {
    var t := Inverse(q);
    var v := Inverse(r);
    PositiveProduct(r, q);
    ScaledShorter(t, q, 1.0, ux, uy);
    ScaledShorter(v, r, 1.0, wx, wy);
    Unscale(t, q, ux);
    Unscale(t, q, uy);
    Unscale(v, r, wx);
    Unscale(v, r, wy);
    UnitInner(t * ux, t * uy, v * wx, v * wy);
    ProductOfScaled(q, r, t * ux, v * wx, ux, wx);
    ProductOfScaled(q, r, t * uy, v * wy, uy, wy);
    InnerScales(r * q, (t * ux) * (v * wx), (t * uy) * (v * wy), ux * wx, uy * wy);
  }

  lemma InnerScales(k: real, a: real, b: real, u: real, w: real)
    requires k > 0.0 && a + b < 1.0 && u == k * a && w == k * b
    ensures u + w < k
  {
    Factor(k, a, b);
    ScaleLess(a + b, 1.0, k);
  }

  lemma SumSquared(u: real, w: real)
    ensures (u + w) * (u + w) == u * u + 2.0 * (u * w) + w * w
  {
  }

  lemma PointMeansTouch(p: Disc, x: real, y: real, r: real, zx: real, zy: real)
    requires p.r > 0.0 && r > 0.0 && Within(p.x, p.y, p.r, zx, zy) && Within(x, y, r, zx, zy)
    ensures Touches(p, x, y, r)
  {
    var ux, uy, wx, wy := zx - p.x, zy - p.y, x - zx, y - zy;
    NegatedSquares(zx - x, zy - y);
    InnerBelow(p.r, r, ux, uy, wx, wy);
    SumSquared(ux, wx);
    SumSquared(uy, wy);
    SumSquared(r, p.r);
    Together(p, x, y, r, ux + wx, uy + wy);
  }

  lemma Together(p: Disc, x: real, y: real, r: real, dx: real, dy: real)
    requires x - p.x == dx && y - p.y == dy && dx * dx + dy * dy < (r + p.r) * (r + p.r)
    ensures Touches(p, x, y, r)
  {
  }

  /** For true radii the formula says that the two footprints have an inner point in common. */
  lemma TouchingIsSharing(p: Disc, x: real, y: real, r: real)
    requires p.r > 0.0 && r > 0.0
    ensures Touches(p, x, y, r) <==> ShareAPoint(p, x, y, r)
  {
    if Touches(p, x, y, r) {
      var zx, zy := DividingPoint(p, x, y, r);
    }
    forall zx: real, zy: real | Within(p.x, p.y, p.r, zx, zy) && Within(x, y, r, zx, zy) ensures Touches(p, x, y, r) {
      PointMeansTouch(p, x, y, r, zx, zy);
    }
  }
}
