/** Hit-testing geometry of the drawing canvas
    (src/components/DrawingCanvas.tsx): selection picks the topmost element
    under a point, the eraser tests every sampled point of its path against
    a widened version of the same shapes.

    The source compares square roots (`Math.sqrt`); over the reals every such
    comparison is stated here between squares, and SqrtFreeTests shows the
    two forms agree for every non-negative distance and radius. */
module Geometry {
  import opened Wrappers
  import opened Types

  /** Pen and arrow strokes are hit within this distance. */
  const HitRadius: real := 10.0
  /** Half of the 20-unit eraser stroke. */
  const EraserRadius: real := 10.0
  /** Approximate width of one glyph and height of a line of text. */
  const GlyphWidth: real := 10.0
  const TextHeight: real := 16.0

  function Min(a: real, b: real): real { if a <= b then a else b }
  function Max(a: real, b: real): real { if a <= b then b else a }

  /** Squared Euclidean distance. */
  function DistSq(p: Point, q: Point): (r: real)
    ensures r >= 0.0
  {
    (p.x - q.x) * (p.x - q.x) + (p.y - q.y) * (p.y - q.y)
  }

  /** The point a + t(b - a) of the line through a and b. */
  function Lerp(a: Point, b: Point, t: real): Point {
    Point(a.x + t * (b.x - a.x), a.y + t * (b.y - a.y))
  }

  /** The dot product of p - a with b - a. */
  function Dot(p: Point, a: Point, b: Point): real {
    (p.x - a.x) * (b.x - a.x) + (p.y - a.y) * (b.y - a.y)
  }

  /** `param` of distanceToLineSegment: where the perpendicular from p meets
      the line, as a multiple of b - a; -1 when the segment is a point. */
  function Param(p: Point, a: Point, b: Point): real {
    var lenSq := DistSq(b, a);
    if lenSq != 0.0 then Dot(p, a, b) / lenSq else -1.0
  }

  function Clamp(t: real): (r: real)
    ensures 0.0 <= r <= 1.0
  {
    if t < 0.0 then 0.0 else if t > 1.0 then 1.0 else t
  }

  /** The point of segment [a, b] that distanceToLineSegment measures to:
      a when param < 0, b when param > 1, the foot of the perpendicular in
      between; that is, the point of the segment at the clamped param. */
  function Nearest(p: Point, a: Point, b: Point): (q: Point)
    ensures q == Lerp(a, b, Clamp(Param(p, a, b)))
  {
    var param := Param(p, a, b);
    LerpEnds(a, b);
    if param < 0.0 then a
    else if param > 1.0 then b
    else Point(a.x + param * (b.x - a.x), a.y + param * (b.y - a.y))
  }

  /** The square of `distanceToLineSegment(p, a, b)`. */
  function SegmentDistSq(p: Point, a: Point, b: Point): (r: real)
    ensures r >= 0.0
    ensures p == a ==> r == 0.0
    ensures p == b ==> r == 0.0
  {
    EndsAreNearest(a, b);
    DistSq(p, Nearest(p, a, b))
  }

  /** The start of a segment is its own nearest point; the end is at
      distance zero from its nearest point (which is the start when the
      segment is a single point). */
  lemma EndsAreNearest(a: Point, b: Point)
    ensures Nearest(a, a, b) == a
    ensures DistSq(b, Nearest(b, a, b)) == 0.0
  {
    var c, d := b.x - a.x, b.y - a.y;
    var len := c * c + d * d;
    LerpEnds(a, b);
    if len != 0.0 {
      assert (a.x - a.x) * c + (a.y - a.y) * d == 0.0;
      assert Param(a, a, b) == 0.0;
      assert (b.x - a.x) * c + (b.y - a.y) * d == len;
      DivSelf(len);
      assert Param(b, a, b) == 1.0;
    } else {
      assert DistSq(b, a) == len;
    }
  }

  lemma LerpEnds(a: Point, b: Point)
    ensures Lerp(a, b, 0.0) == a && Lerp(a, b, 1.0) == b
  {
  }

  lemma DivSelf(x: real)
    requires x != 0.0
    ensures x / x == 1.0
  {
  }

  lemma SquarePositive(x: real)
    requires x != 0.0
    ensures x * x > 0.0
  {
    if x > 0.0 {
      calc { x * x; > { MulStrictLeft(x, x, 0.0); } x * 0.0; == 0.0; }
    } else {
      var y := 0.0 - x;
      calc { x * x; == y * y; > { MulStrictLeft(y, y, 0.0); } y * 0.0; == 0.0; }
    }
  }

  lemma SquareNonneg(x: real)
    ensures x * x >= 0.0
  {
    if x != 0.0 {
      SquarePositive(x);
    }
  }

  /** A sum of two squares vanishes only when both terms do. */
  lemma SumOfSquaresZero(c: real, d: real)
    requires c * c + d * d == 0.0
    ensures c == 0.0 && d == 0.0
  {
    if c != 0.0 {
      calc {
        0.0;
        == c * c + d * d;
        > { SquarePositive(c); SquareNonneg(d); }
        0.0;
      }
    }
    if d != 0.0 {
      calc {
        0.0;
        == c * c + d * d;
        > { SquarePositive(d); SquareNonneg(c); }
        0.0;
      }
    }
  }

  lemma MulLeLeft(k: real, x: real, y: real)
    requires k >= 0.0 && x <= y
    ensures k * x <= k * y
  {
  }

  lemma MulStrictLeft(k: real, x: real, y: real)
    requires k > 0.0 && x > y
    ensures k * x > k * y
  {
  }

  lemma MulStrict(x: real, y: real, k: real)
    requires k > 0.0 && x > y
    ensures x * k > y * k
  {
  }

  lemma MulLe(x: real, y: real, k: real)
    requires k >= 0.0 && x <= y
    ensures x * k <= y * k
  {
  }

  lemma MulNonneg(x: real, y: real)
    requires x >= 0.0 && y >= 0.0
    ensures x * y >= 0.0
  {
  }

  lemma SquareOfDifference(a: real, u: real)
    ensures (a - u) * (a - u) == a * a - 2.0 * a * u + u * u
  {
  }

  /** (A - tC)^2 + (B - tD)^2 as a polynomial in t, whose coefficients are
      given as F, G and L. */
  lemma ExpandSquares(A: real, B: real, C: real, D: real, t: real, F: real, G: real, L: real)
    requires F == A * A + B * B && G == A * C + B * D && L == C * C + D * D
    ensures (A - t * C) * (A - t * C) + (B - t * D) * (B - t * D) == F - 2.0 * t * G + t * t * L
  {
    SquareOfDifference(A, t * C);
    SquareOfDifference(B, t * D);
    assert (t * C) * (t * C) == t * t * (C * C);
    assert (t * D) * (t * D) == t * t * (D * D);
  }

  /** The squared distance from p to the point of the line at t equals any
      X that the offset p - a - t(b - a) squares to. */
  lemma LerpOffset(p: Point, a: Point, b: Point, t: real, X: real)
    requires (p.x - a.x - t * (b.x - a.x)) * (p.x - a.x - t * (b.x - a.x)) +
             (p.y - a.y - t * (b.y - a.y)) * (p.y - a.y - t * (b.y - a.y)) == X
    ensures DistSq(p, Lerp(a, b, t)) == X
  {
    var q := Lerp(a, b, t);
    assert p.x - q.x == p.x - a.x - t * (b.x - a.x);
    assert p.y - q.y == p.y - a.y - t * (b.y - a.y);
  }

  /** The squared distance from p to the point of the line at t, expanded as a
      polynomial in t. */
  lemma DistToLine(p: Point, a: Point, b: Point, t: real)
    ensures DistSq(p, Lerp(a, b, t)) == DistSq(p, a) - 2.0 * t * Dot(p, a, b) + t * t * DistSq(b, a)
  {
    var X := DistSq(p, a) - 2.0 * t * Dot(p, a, b) + t * t * DistSq(b, a);
    assert DistSq(p, Lerp(a, b, t)) == X by {
      var A, B, C, D := p.x - a.x, p.y - a.y, b.x - a.x, b.y - a.y;
      ExpandSquares(A, B, C, D, t, DistSq(p, a), Dot(p, a, b), DistSq(b, a));
      LerpOffset(p, a, b, t, X);
    }
  }

  /** For f(t) = base - 2 t dot + t^2 len with len >= 0, the parameter clamped
      into [0, 1] minimises f over [0, 1]: f(t) - f(s) >= 0. */
  lemma ClampedParamIsMinimal(base: real, dot: real, len: real, t: real, s: real, fs: real, ft: real)
    requires len >= 0.0 && 0.0 <= t <= 1.0
    requires len == 0.0 ==> dot == 0.0
    requires s == Clamp(if len != 0.0 then dot / len else -1.0)
    requires fs == base - 2.0 * s * dot + s * s * len
    requires ft == base - 2.0 * t * dot + t * t * len
    ensures fs <= ft
  {
    GapIsNonneg(dot, len, t);
    SmallerAt(base, dot, len, t, s);
  }

  lemma GapIsNonneg(dot: real, len: real, t: real)
    requires len >= 0.0 && 0.0 <= t <= 1.0
    requires len == 0.0 ==> dot == 0.0
    ensures var s := Clamp(if len != 0.0 then dot / len else -1.0);
      (t - s) * ((t + s) * len - 2.0 * dot) >= 0.0
  {
    var param := if len != 0.0 then dot / len else -1.0;
    var s := Clamp(param);
    if len == 0.0 {
    } else if param < 0.0 {
      assert dot == param * len;
      MulStrict(0.0, param, len);
      assert dot < 0.0;
      MulNonneg(t, len);
      assert (t - s) * ((t + s) * len - 2.0 * dot) == t * (t * len - 2.0 * dot);
      MulNonneg(t, t * len - 2.0 * dot);
    } else if param > 1.0 {
      assert dot == param * len;
      MulStrict(param, 1.0, len);
      assert dot > len;
      assert s == 1.0;
      MulLe(t + 1.0, 2.0, len);
      var gap := (t + s) * len - 2.0 * dot;
      assert (t + s) * len == (t + 1.0) * len;
      assert gap <= 0.0;
      MulNonneg(1.0 - t, -gap);
      assert (t - s) * gap == (1.0 - t) * (-gap);
    } else {
      assert dot == s * len;
      assert (t - s) * ((t + s) * len - 2.0 * dot) == (t - s) * (t - s) * len;
      SquareNonneg(t - s);
      MulNonneg((t - s) * (t - s), len);
    }
  }

  /** A segment of zero length is a single point. */
  lemma ZeroLength(a: Point, b: Point)
    requires DistSq(b, a) == 0.0
    ensures a == b
  {
    SumOfSquaresZero(b.x - a.x, b.y - a.y);
  }

  /** If the gap factor is non-negative, f(s) <= f(t) for the quadratic f of
      DistToLine. */
  lemma SmallerAt(base: real, dot: real, len: real, t: real, s: real)
    requires (t - s) * ((t + s) * len - 2.0 * dot) >= 0.0
    ensures base - 2.0 * s * dot + s * s * len <= base - 2.0 * t * dot + t * t * len
  {
    assert (base - 2.0 * t * dot + t * t * len) - (base - 2.0 * s * dot + s * s * len)
        == (t - s) * ((t + s) * len - 2.0 * dot);
  }

  /** A segment of zero length has a zero dot product with everything. */
  lemma ZeroLengthDot(p: Point, a: Point, b: Point)
    ensures DistSq(b, a) == 0.0 ==> Dot(p, a, b) == 0.0
  {
    if DistSq(b, a) == 0.0 {
      ZeroLength(a, b);
      assert Dot(p, a, b) == (p.x - a.x) * 0.0 + (p.y - a.y) * 0.0;
    }
  }

  /** The measured point is the closest point of the segment, so the result
      of distanceToLineSegment is the distance to the segment. */
  lemma NearestIsClosest(p: Point, a: Point, b: Point, t: real)
    requires 0.0 <= t <= 1.0
    ensures SegmentDistSq(p, a, b) <= DistSq(p, Lerp(a, b, t))
  {
    var s := Clamp(Param(p, a, b));
    DistToLine(p, a, b, t);
    DistToLine(p, a, b, s);
    ZeroLengthDot(p, a, b);
    ClampedParamIsMinimal(DistSq(p, a), Dot(p, a, b), DistSq(b, a), t, s,
                          SegmentDistSq(p, a, b), DistSq(p, Lerp(a, b, t)));
  }

  /** The circle eraser test `distance <= radius + w` over squares: with
      d2 the squared distance and r2 the squared radius. */
  predicate WithinWidenedCircle(d2: real, r2: real, w: real) {
    var excess := d2 - r2 - w * w;
    excess <= 0.0 || excess * excess <= 4.0 * w * w * r2
  }

  lemma SquareMonotone(d: real, r: real)
    requires 0.0 <= d <= r
    ensures d * d <= r * r
  {
    calc {
      d * d;
      <= { MulLe(d, r, d); }
      r * d;
      <= { MulLeLeft(r, d, r); }
      r * r;
    }
  }

  lemma SquareStrict(d: real, r: real)
    requires 0.0 <= d < r
    ensures d * d < r * r
  {
    calc {
      d * d;
      <= { MulLe(d, r, d); }
      r * d;
      < { MulStrictLeft(r, r, d); }
      r * r;
    }
  }

  /** Between non-negative numbers, comparing squares is comparing the
      numbers. */
  lemma SquaresCompare(d: real, r: real)
    requires d >= 0.0 && r >= 0.0
    ensures d <= r <==> d * d <= r * r
    ensures d < r <==> d * d < r * r
  {
    if d < r {
      SquareStrict(d, r);
    } else if d == r {
    } else {
      SquareStrict(r, d);
    }
  }

  /** Each square comparison agrees with the source's comparison of roots,
      for every non-negative distance d and radius r. */
  lemma SqrtFreeTests(d: real, r: real, w: real)
    requires d >= 0.0 && r >= 0.0 && w > 0.0
    ensures d < w <==> d * d < w * w
    ensures d <= r <==> d * d <= r * r
    ensures d <= r + w <==> WithinWidenedCircle(d * d, r * r, w)
  {
    SquaresCompare(d, w);
    SquaresCompare(d, r);
    SquaresCompare(d, r + w);
    var excess := d * d - r * r - w * w;
    var bound := 2.0 * w * r;
    MulNonneg(2.0 * w, r);
    assert (r + w) * (r + w) == r * r + bound + w * w;
    assert bound * bound == 4.0 * w * w * (r * r);
    if d <= r + w {
      assert excess <= bound;
      if excess > 0.0 {
        SquareMonotone(excess, bound);
      }
    } else {
      assert excess > bound;
      SquareStrict(bound, excess);
      assert !(excess * excess <= 4.0 * w * w * (r * r));
    }
  }

  /** Some consecutive pair of points forms a segment closer than sqrt(limit). */
  function NearSegment(p: Point, pts: seq<Point>, limit: real): (r: bool)
    ensures r <==> exists i :: 0 <= i < |pts| - 1 && SegmentDistSq(p, pts[i], pts[i + 1]) < limit
  {
    if |pts| < 2 then false
    else
      SegmentDistSq(p, pts[0], pts[1]) < limit || NearSegment(p, pts[1..], limit)
  }

  /** The box spanned by two corners, in either order, widened by margin. */
  predicate InBox(p: Point, a: Point, b: Point, margin: real) {
    Min(a.x, b.x) - margin <= p.x <= Max(a.x, b.x) + margin &&
    Min(a.y, b.y) - margin <= p.y <= Max(a.y, b.y) + margin
  }

  /** `(element.text?.length || 0) * 10` */
  function TextWidth(e: DrawingElement): (w: real)
    ensures w >= 0.0
  {
    (if e.text.Some? then |e.text.value| else 0) as real * GlyphWidth
  }

  /** The approximate text box: from the anchor, TextWidth to the right and
      one line of text upwards, widened by margin. */
  predicate InTextBox(p: Point, e: DrawingElement, margin: real)
    requires |e.points| > 0
  {
    var anchor := e.points[0];
    anchor.x - margin <= p.x <= anchor.x + TextWidth(e) + margin &&
    anchor.y - TextHeight - margin <= p.y <= anchor.y + margin
  }

  /** `isPointInElement`: the per-type containment test used for selection.
      Elements lacking the points their type needs, and erasers, are never
      hit. */
  function IsPointInElement(p: Point, e: DrawingElement): (r: bool)
    ensures e.kind == Eraser ==> !r
    ensures e.kind in {Pen, Rectangle, Circle, Arrow} && |e.points| < 2 ==> !r
    ensures e.kind == Text && e.points == [] ==> !r
  {
    match e.kind
    case Pen => NearSegment(p, e.points, HitRadius * HitRadius)
    case Rectangle => |e.points| >= 2 && InBox(p, e.points[0], e.points[1], 0.0)
    case Circle => |e.points| >= 2 && DistSq(p, e.points[0]) <= DistSq(e.points[1], e.points[0])
    case Arrow => |e.points| >= 2 && SegmentDistSq(p, e.points[0], e.points[1]) < HitRadius * HitRadius
    case Text => |e.points| > 0 && InTextBox(p, e, 0.0)
    case Eraser => false
  }

  /** The per-type test of `checkEraserIntersection` for one eraser point:
      the selection test widened by EraserRadius. */
  function EraserHitsPoint(q: Point, e: DrawingElement): (r: bool)
    ensures e.kind == Eraser ==> !r
    ensures e.kind in {Pen, Rectangle, Circle, Arrow} && |e.points| < 2 ==> !r
    ensures e.kind == Text && e.points == [] ==> !r
    ensures e.kind in {Pen, Rectangle, Arrow, Text} && IsPointInElement(q, e) ==> r
  {
    match e.kind
    case Pen => NearSegment(q, e.points, EraserRadius * EraserRadius)
    case Rectangle => |e.points| >= 2 && InBox(q, e.points[0], e.points[1], EraserRadius)
    case Circle => |e.points| >= 2 &&
      WithinWidenedCircle(DistSq(q, e.points[0]), DistSq(e.points[1], e.points[0]), EraserRadius)
    case Arrow => |e.points| >= 2 && SegmentDistSq(q, e.points[0], e.points[1]) < EraserRadius * EraserRadius
    case Text => |e.points| > 0 && InTextBox(q, e, EraserRadius)
    case Eraser => false
  }

  /** `checkEraserIntersection`: some point of the eraser's path hits. */
  function CheckEraserIntersection(path: seq<Point>, e: DrawingElement): (r: bool)
    ensures r <==> exists i :: 0 <= i < |path| && EraserHitsPoint(path[i], e)
    ensures path == [] ==> !r
  {
    if path == [] then false
    else
      assert forall i :: 0 <= i < |path| - 1 ==> path[1..][i] == path[i + 1];
      EraserHitsPoint(path[0], e) || CheckEraserIntersection(path[1..], e)
  }

  /** `findElementAtPoint`: the highest-index (topmost) element that the
      point hits, or none. */
  function FindElementAtPoint(p: Point, els: seq<DrawingElement>): (r: Option<DrawingElement>)
    ensures r.None? <==> forall i :: 0 <= i < |els| ==> !IsPointInElement(p, els[i])
    ensures r.Some? ==> exists i :: 0 <= i < |els| && els[i] == r.value && IsPointInElement(p, els[i]) &&
                                    forall j :: i < j < |els| ==> !IsPointInElement(p, els[j])
    decreases |els|
  {
    if els == [] then None
    else if IsPointInElement(p, els[|els| - 1]) then Some(els[|els| - 1])
    else FindElementAtPoint(p, els[..|els| - 1])
  }

  /** Anything a click selects, an eraser touching the same point erases;
      for pens and arrows the two tests coincide. */
  lemma PointHitIsEraserHit(p: Point, e: DrawingElement)
    ensures IsPointInElement(p, e) ==> CheckEraserIntersection([p], e)
    ensures e.kind in {Pen, Arrow} ==> (IsPointInElement(p, e) <==> CheckEraserIntersection([p], e))
  {
    assert CheckEraserIntersection([p], e) == EraserHitsPoint(p, e);
    if e.kind == Circle && |e.points| >= 2 && IsPointInElement(p, e) {
      var d2 := DistSq(p, e.points[0]);
      var r2 := DistSq(e.points[1], e.points[0]);
      assert d2 - r2 - EraserRadius * EraserRadius <= 0.0;
    }
  }

  /** Swapping the two corners of a rectangle never changes whether a point
      is inside. */
  lemma RectangleCornersCommute(p: Point, e: DrawingElement)
    requires e.kind == Rectangle && |e.points| >= 2
    ensures IsPointInElement(p, e) == IsPointInElement(p, e.(points := [e.points[1], e.points[0]] + e.points[2..]))
  {
  }

  /** A pen stroke of fewer than two points is never hit, by selection or
      by the eraser. */
  lemma DotPenIsNeverHit(p: Point, path: seq<Point>, e: DrawingElement)
    requires e.kind == Pen && |e.points| < 2
    ensures !IsPointInElement(p, e) && !CheckEraserIntersection(path, e)
  {
  }

  /** Worked cases: a point inside and outside a rectangle, and a point on a
      vertical segment. */
  lemma WorkedExamples()
    ensures IsPointInElement(Point(5.0, 5.0),
      DrawingElement("r", Rectangle, [Point(0.0, 0.0), Point(10.0, 10.0)], Style("#000", 2.0, None), None, "u", 0))
    ensures !IsPointInElement(Point(5.0, 5.0),
      DrawingElement("r", Rectangle, [Point(20.0, 20.0), Point(30.0, 30.0)], Style("#000", 2.0, None), None, "u", 0))
    ensures SegmentDistSq(Point(0.0, 5.0), Point(0.0, 0.0), Point(0.0, 10.0)) == 0.0
  {
    var p, a, b := Point(0.0, 5.0), Point(0.0, 0.0), Point(0.0, 10.0);
    assert Param(p, a, b) == 50.0 / 100.0;
  }
}
