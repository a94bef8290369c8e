/** Triangular membership functions and the discretised universe every
    variable of the grading system is defined over.

    A triangle `Tri(a, b, c)` is evaluated the way the fuzzy toolkit's
    `trimf` does it: the peak `b` has degree 1, the open sides `(a, b)` and
    `(b, c)` are linear ramps, and everything else is 0.  A degenerate side
    (`a == b` or `b == c`) is simply skipped, so no division by zero ever
    happens.
 */
module Membership {

  function Min(x: real, y: real): real { if x <= y then x else y }

  function Max(x: real, y: real): real { if x <= y then y else x }

  // Small facts about real division that the solver needs spelled out.

  lemma DivSelf(p: real, w: real)
    requires w != 0.0
    ensures (p / w) * w == p
    ensures 0.0 / w == 0.0 && w / w == 1.0
  {
  }

  lemma DivMonotone(p: real, q: real, w: real)
    requires w > 0.0 && p <= q
    ensures p / w <= q / w
  {
  }

  lemma ProperFraction(p: real, w: real)
    requires 0.0 < p < w
    ensures 0.0 < p / w < 1.0
  {
    var q := p / w;
    assert q * w == p;
    assert q <= 0.0 ==> q * w <= 0.0;
    assert q >= 1.0 ==> q * w >= w;
  }

  /** The three breakpoints of a triangle: left foot, peak, right foot. */
  datatype Tri = Tri(a: real, b: real, c: real) {
    /** The toolkit rejects triangles whose breakpoints are out of order. */
    predicate Valid() { a <= b <= c }
  }

  /** Degree of membership of `x` in the triangle `t`, for every real `x`. */
  function Degree(t: Tri, x: real): (d: real)
    requires t.Valid()
    ensures 0.0 <= d <= 1.0
    ensures x < t.a || t.c < x ==> d == 0.0
    ensures x == t.b ==> d == 1.0
    ensures d == 1.0 ==> x == t.b
  {
    if x == t.b then 1.0
    else if t.a < x < t.b then (ProperFraction(x - t.a, t.b - t.a); (x - t.a) / (t.b - t.a))
    else if t.b < x < t.c then (ProperFraction(t.c - x, t.c - t.b); (t.c - x) / (t.c - t.b))
    else 0.0
  }

  /** On the rising side the degree is the linear ramp from 0 at `a` to 1 at `b`. */
  lemma RisingSide(t: Tri, x: real)
    requires t.Valid() && t.a < t.b && t.a <= x <= t.b
    ensures Degree(t, x) == (x - t.a) / (t.b - t.a)
  {
    DivSelf(x - t.a, t.b - t.a);
  }

  /** On the falling side the degree is the linear ramp from 1 at `b` to 0 at `c`. */
  lemma FallingSide(t: Tri, x: real)
    requires t.Valid() && t.b < t.c && t.b <= x <= t.c
    ensures Degree(t, x) == (t.c - x) / (t.c - t.b)
  {
    DivSelf(t.c - x, t.c - t.b);
  }

  /** The feet of a proper side have degree 0. */
  lemma FeetAreZero(t: Tri)
    requires t.Valid()
    ensures t.a < t.b ==> Degree(t, t.a) == 0.0
    ensures t.b < t.c ==> Degree(t, t.c) == 0.0
  {
  }

  /** The degree never decreases from the left foot up to the peak. */
  lemma MonotoneUpToPeak(t: Tri, x: real, y: real)
    requires t.Valid() && x <= y <= t.b
    ensures Degree(t, x) <= Degree(t, y)
  {
    if y == t.b {
    } else if x <= t.a {
    } else {
      DivMonotone(x - t.a, y - t.a, t.b - t.a);
    }
  }

  /** The degree never increases from the peak down to the right foot. */
  lemma MonotoneDownFromPeak(t: Tri, x: real, y: real)
    requires t.Valid() && t.b <= x <= y
    ensures Degree(t, y) <= Degree(t, x)
  {
    if x == t.b {
    } else if t.c <= y {
    } else {
      DivMonotone(t.c - y, t.c - x, t.c - t.b);
    }
  }

  /** For a proper triangle (`a < b < c`) the degree agrees with the usual
      closed form `max(0, min((x - a)/(b - a), (c - x)/(c - b)))`. */
  lemma ClosedForm(t: Tri, x: real)
    requires t.a < t.b < t.c
    ensures Degree(t, x) == Max(0.0, Min((x - t.a) / (t.b - t.a), (t.c - x) / (t.c - t.b)))
  {
    var up := (x - t.a) / (t.b - t.a);
    var down := (t.c - x) / (t.c - t.b);
    DivSelf(t.b - t.a, t.b - t.a);
    DivSelf(t.c - t.b, t.c - t.b);
    if x <= t.b {
      DivMonotone(x - t.a, t.b - t.a, t.b - t.a);
      DivMonotone(t.c - t.b, t.c - x, t.c - t.b);
      assert up <= 1.0 <= down;
      if x < t.a {
        DivMonotone(x - t.a, 0.0, t.b - t.a);
      } else {
        RisingSide(t, x);
        DivMonotone(0.0, x - t.a, t.b - t.a);
      }
    } else {
      DivMonotone(t.c - x, t.c - t.b, t.c - t.b);
      DivMonotone(t.b - t.a, x - t.a, t.b - t.a);
      assert down <= 1.0 <= up;
      if t.c < x {
        DivMonotone(t.c - x, 0.0, t.c - t.b);
      } else {
        FallingSide(t, x);
        DivMonotone(0.0, t.c - x, t.c - t.b);
      }
    }
  }

  /** Number of sample points of the universe `0, 1, ..., 10`. */
  const UniverseSize: nat := 11

  /** The largest point of the universe. */
  const UniverseMax: real := 10.0

  /** The universe `0..10` in unit steps, shared by every variable. */
  function Universe(): (u: seq<real>)
    ensures |u| == UniverseSize
    ensures forall k :: 0 <= k < |u| ==> 0.0 <= u[k] <= UniverseMax
  {
    seq(UniverseSize, k requires 0 <= k < UniverseSize => k as real)
  }

  /** The triangle sampled at every point of the universe, as the toolkit
      stores each term. */
  function Sample(t: Tri): (s: seq<real>)
    requires t.Valid()
    ensures |s| == UniverseSize
    ensures forall k :: 0 <= k < |s| ==> 0.0 <= s[k] <= 1.0
  {
    seq(UniverseSize, k requires 0 <= k < UniverseSize => Degree(t, k as real))
  }

  /** The point a fraction `f` of the way from `y0` to `y1`. */
  function Lerp(y0: real, y1: real, f: real): real {
    y0 + f * (y1 - y0)
  }

  /** For `f` in `[0, 1]` the interpolated point lies between the two ends. */
  lemma LerpBetween(y0: real, y1: real, f: real)
    requires 0.0 <= f <= 1.0
    ensures y0 <= y1 ==> y0 <= Lerp(y0, y1, f) <= y1
    ensures y1 <= y0 ==> y1 <= Lerp(y0, y1, f) <= y0
  {
    var d := y1 - y0;
    ScaleBetween(f, d);
    assert Lerp(y0, y1, f) == y0 + f * d;
  }

  lemma ScaleBetween(f: real, d: real)
    requires 0.0 <= f <= 1.0
    ensures d >= 0.0 ==> 0.0 <= f * d <= d
    ensures d <= 0.0 ==> d <= f * d <= 0.0
  {
  }

  /** Piecewise-linear interpolation of universe samples at a crisp value,
      which is how the toolkit reads a term's degree at an input. */
  function Interp(s: seq<real>, x: real): (y: real)
    requires |s| == UniverseSize && 0.0 <= x <= UniverseMax
    ensures x == x.Floor as real ==> y == s[x.Floor]
    ensures x.Floor < 10 && s[x.Floor] <= s[x.Floor + 1] ==> s[x.Floor] <= y <= s[x.Floor + 1]
    ensures x.Floor < 10 && s[x.Floor + 1] <= s[x.Floor] ==> s[x.Floor + 1] <= y <= s[x.Floor]
  {
    var i := x.Floor;
    if i == 10 then s[10]
    else if x == i as real then s[i]
    else
      LerpBetween(s[i], s[i + 1], x - i as real);
      Lerp(s[i], s[i + 1], x - i as real)
  }

  /** The breakpoints lie on the unit grid of the universe, and a degenerate
      side (a shoulder) only occurs at the edge of the universe. */
  predicate OnGrid(t: Tri) {
    && t.Valid()
    && 0.0 <= t.a && t.c <= UniverseMax
    && t.a == t.a.Floor as real && t.b == t.b.Floor as real && t.c == t.c.Floor as real
    && (t.a == t.b ==> t.a == 0.0)
    && (t.b == t.c ==> t.c == UniverseMax)
  }

  /** Between two neighbouring grid points the triangle is affine when no
      breakpoint lies strictly inside the segment. */
  lemma AffineOnUnitSegment(t: Tri, i: int, f: real)
    requires OnGrid(t) && 0 <= i < 10 && 0.0 <= f <= 1.0
    ensures Degree(t, i as real + f) == Lerp(Degree(t, i as real), Degree(t, i as real + 1.0), f)
  {
    var a, b, c := t.a.Floor, t.b.Floor, t.c.Floor;
    var lo := i as real;
    assert t.a == a as real && t.b == b as real && t.c == c as real;
    if i + 1 <= a {
      assert lo + 1.0 <= t.a && t.a < t.b;
      FlatSegment(t, lo, f);
    } else if c <= i {
      assert t.c <= lo && t.b < t.c;
      FlatSegment(t, lo, f);
    } else if i + 1 <= b {
      assert t.a <= lo && lo + 1.0 <= t.b;
      RisingSegment(t, lo, f);
    } else {
      assert t.b <= lo && lo + 1.0 <= t.c;
      FallingSegment(t, lo, f);
    }
  }

  lemma FlatSegment(t: Tri, lo: real, f: real)
    requires t.Valid() && 0.0 <= f <= 1.0
    requires (lo + 1.0 <= t.a && t.a < t.b) || (t.c <= lo && t.b < t.c)
    ensures Degree(t, lo + f) == Lerp(Degree(t, lo), Degree(t, lo + 1.0), f)
  {
    ZeroBetween(t, lo, lo + f, lo + 1.0);
  }

  lemma RisingSegment(t: Tri, lo: real, f: real)
    requires t.Valid() && 0.0 <= f <= 1.0
    requires t.a <= lo && lo + 1.0 <= t.b
    ensures Degree(t, lo + f) == Lerp(Degree(t, lo), Degree(t, lo + 1.0), f)
  {
    RisingScaled(t, lo);
    RisingScaled(t, lo + 1.0);
    RisingScaled(t, lo + f);
    LerpFromScaled(t.b - t.a, lo - t.a, 1.0, f, Degree(t, lo), Degree(t, lo + 1.0), Degree(t, lo + f));
  }

  lemma FallingSegment(t: Tri, lo: real, f: real)
    requires t.Valid() && 0.0 <= f <= 1.0
    requires t.b <= lo && lo + 1.0 <= t.c
    ensures Degree(t, lo + f) == Lerp(Degree(t, lo), Degree(t, lo + 1.0), f)
  {
    FallingScaled(t, lo);
    FallingScaled(t, lo + 1.0);
    FallingScaled(t, lo + f);
    LerpFromScaled(t.c - t.b, t.c - lo, -1.0, f, Degree(t, lo), Degree(t, lo + 1.0), Degree(t, lo + f));
  }

  lemma RisingScaled(t: Tri, x: real)
    requires t.Valid() && t.a < t.b && t.a <= x <= t.b
    ensures Degree(t, x) * (t.b - t.a) == x - t.a
  {
    RisingSide(t, x);
    DivSelf(x - t.a, t.b - t.a);
  }

  lemma FallingScaled(t: Tri, x: real)
    requires t.Valid() && t.b < t.c && t.b <= x <= t.c
    ensures Degree(t, x) * (t.c - t.b) == t.c - x
  {
    FallingSide(t, x);
    DivSelf(t.c - x, t.c - t.b);
  }

  /** Three values that are affine in the same way after scaling by `w` are
      affine themselves. */
  lemma LerpFromScaled(w: real, p0: real, g: real, f: real, d0: real, d1: real, df: real)
    requires w != 0.0
    requires d0 * w == p0 && d1 * w == p0 + g && df * w == p0 + f * g
    ensures df == Lerp(d0, d1, f)
  {
    var l := Lerp(d0, d1, f);
    assert (d1 - d0) * w == g;
    assert l * w == d0 * w + f * ((d1 - d0) * w);
    assert (df - l) * w == 0.0;
  }

  lemma ZeroBetween(t: Tri, lo: real, x: real, hi: real)
    requires t.Valid() && lo <= x <= hi
    requires (hi <= t.a && t.a < t.b) || (t.c <= lo && t.b < t.c)
    ensures Degree(t, lo) == Degree(t, x) == Degree(t, hi) == 0.0
  {
  }

  /** Reading a grid triangle through its universe samples gives exactly the
      triangle's degree, so the grading system may evaluate triangles directly. */
  lemma InterpolatedSampleIsExact(t: Tri, x: real)
    requires OnGrid(t) && 0.0 <= x <= UniverseMax
    ensures Interp(Sample(t), x) == Degree(t, x)
  {
    var i := x.Floor;
    if i < 10 && x != i as real {
      var lo := i as real;
      AffineOnUnitSegment(t, i, x - lo);
      assert (i + 1) as real == lo + 1.0;
      assert Sample(t)[i] == Degree(t, lo);
      assert Sample(t)[i + 1] == Degree(t, lo + 1.0);
      assert lo + (x - lo) == x;
    }
  }
}
