/**
 The line and circle rasterisers of the graphics window. Pixels are collected in order instead
 of being written to the frame buffer; clipping comes after.
 */
module Raster {

  /** The line drawer gives up after this many pixels. */
  const GUARD: int := 8192

  datatype Point = Point(x: int, y: int)

  function Abs(v: int): (r: int)
    ensures r >= 0 && (r == v || r == -v)
  {
    if v < 0 then -v else v
  }

  function Max(a: int, b: int): int {
    if a < b then b else a
  }

  /** Length of the segment's longer side. */
  function Span(p: Point, q: Point): int {
    Max(Abs(q.x - p.x), Abs(q.y - p.y))
  }

  /** Twice the area between the ideal line from `p` to `q` and the point `a`. */
  function Cross(p: Point, q: Point, a: Point): int {
    (q.x - p.x) * (a.y - p.y) - (q.y - p.y) * (a.x - p.x)
  }

  /** `a` is off the ideal line by at most half a pixel along the shorter axis. */
  predicate Close(p: Point, q: Point, a: Point) {
    2 * Abs(Cross(p, q, a)) <= Span(p, q)
  }

  predicate Neighbours(a: Point, b: Point) {
    a != b && Abs(a.x - b.x) <= 1 && Abs(a.y - b.y) <= 1
  }

  /** How far `i` steps along x and `j` along y are off a line of slope `b / a`, times `a`. */
  function Dev(a: int, b: int, i: int, j: int): int {
    a * j - b * i
  }

  predicate Small(a: int, b: int, d: int) {
    if a >= b then -a <= 2 * d <= a else -b <= 2 * d <= b
  }

  /** One step: the longer side always advances, the shorter one when the error calls for it. */
  lemma LineStep(a: int, b: int, i: int, j: int, err: int)
    requires 0 <= a && 0 <= b && 0 < Max(a, b) && err == Dev(a, b, i, j) + a - b && Small(a, b, Dev(a, b, i, j))
    ensures Dev(a, b, i + 1, j) == Dev(a, b, i, j) - b && Dev(a, b, i, j + 1) == Dev(a, b, i, j) + a
    ensures Dev(a, b, i + 1, j + 1) == Dev(a, b, i, j) + a - b
    ensures a >= b ==> 2 * err >= -b && Small(a, b, Dev(a, b, i + 1, if 2 * err <= a then j + 1 else j))
    ensures a < b ==> 2 * err <= a && Small(a, b, Dev(a, b, if 2 * err >= -b then i + 1 else i, j + 1))
  {
    assert a * (j + 1) == a * j + a && b * (i + 1) == b * i + b;
  }

  /** On the longer axis' last step the shorter one has arrived too. */
  lemma LineEnds(a: int, b: int, i: int, j: int)
    requires 0 <= a && 0 <= b && Small(a, b, Dev(a, b, i, j))
    ensures a >= b && 0 < a && i == a ==> j == b
    ensures a < b && j == b ==> i == a
  {
    if a >= b && 0 < a && i == a {
      assert a * j - b * a == a * (j - b);
      SmallMultiple(a, j - b);
    } else if a < b && j == b {
      assert a * b - b * i == b * (a - i);
      SmallMultiple(b, a - i);
    }
  }

  lemma SmallMultiple(a: int, d: int)
    requires 0 < a && -a <= 2 * (a * d) <= a
    ensures d == 0
  {
    assert d >= 1 ==> a * d >= a;
    assert d <= -1 ==> a * d <= -a;
  }

  lemma CrossIs(p: Point, q: Point, sx: int, sy: int, i: int, j: int)
    requires (sx == 1 || sx == -1) && (sy == 1 || sy == -1)
    requires q.x - p.x == sx * Abs(q.x - p.x) && q.y - p.y == sy * Abs(q.y - p.y)
    ensures Abs(Cross(p, q, Point(p.x + sx * i, p.y + sy * j))) == Abs(Abs(q.x - p.x) * j - Abs(q.y - p.y) * i)
  {
    var a, b := Abs(q.x - p.x), Abs(q.y - p.y);
    var c := Cross(p, q, Point(p.x + sx * i, p.y + sy * j));
    assert c == (sx * a) * (sy * j) - (sy * b) * (sx * i);
    if sx == sy {
      assert c == a * j - b * i;
    } else {
      assert c == -(a * j - b * i);
    }
  }

  /**
   Draws the segment from `p` to `q`. It reaches `q` exactly when the longer side is within the
   guard, with one pixel per step of that side, neighbours all the way and none off by more than
   half a pixel.
   */
  method Segment(p: Point, q: Point) returns (pts: seq<Point>)
    ensures |pts| == if Span(p, q) < GUARD then Span(p, q) + 1 else GUARD
    ensures pts[0] == p && (pts[|pts| - 1] == q <==> Span(p, q) < GUARD)
    ensures forall k :: 0 <= k < |pts| ==> Close(p, q, pts[k])
    ensures forall k :: 0 <= k < |pts| - 1 ==> Neighbours(pts[k], pts[k + 1])
  {
    hide Close, Cross, Neighbours, Dev, Small;
    ghost var a, b := Abs(q.x - p.x), Abs(q.y - p.y);
    var dx, sx := Abs(q.x - p.x), if p.x < q.x then 1 else -1;
    var dy, sy := -Abs(q.y - p.y), if p.y < q.y then 1 else -1;
    var err := dx + dy;
    var x, y := p.x, p.y;
    pts := [];
    ghost var i, j := 0, 0;
    DevStart(a, b);
    var guard := 0;
    while guard < GUARD
      invariant 0 <= guard <= GUARD && |pts| == guard && guard <= Span(p, q)
      invariant 0 <= i <= guard && 0 <= j <= guard && (if a >= b then i else j) == guard
      invariant x == p.x + sx * i && y == p.y + sy * j
      invariant err == Dev(a, b, i, j) + a - b && Small(a, b, Dev(a, b, i, j))
      invariant a == 0 && b == 0 ==> i == 0 && j == 0
      invariant guard > 0 ==> pts[0] == p && Neighbours(pts[guard - 1], Point(x, y))
      invariant guard == 0 ==> i == 0 && j == 0
      invariant forall k :: 0 <= k < |pts| ==> Close(p, q, pts[k])
      invariant forall k :: 0 <= k < |pts| ==> pts[k] != q
      invariant forall k :: 0 <= k < |pts| - 1 ==> Neighbours(pts[k], pts[k + 1])
    {
      CloseIs(p, q, sx, sy, i, j);
      pts := pts + [Point(x, y)];
      LineEnds(a, b, i, j);
      if x == q.x && y == q.y {
        Arrived(p, q, sx, sy, i, j);
        break;
      }
      NotYet(p, q, sx, sy, i, j, guard);
      LineStep(a, b, i, j, err);
      StepIsNear(x, y, sx, sy);
      var e2 := 2 * err;
      if e2 >= dy {
        err := err + dy;
        x := x + sx;
        i := i + 1;
      }
      if e2 <= dx {
        err := err + dx;
        y := y + sy;
        j := j + 1;
      }
      guard := guard + 1;
    }
  }

  lemma CloseIs(p: Point, q: Point, sx: int, sy: int, i: int, j: int)
    requires sx == (if p.x < q.x then 1 else -1) && sy == (if p.y < q.y then 1 else -1)
    ensures var a, b := Abs(q.x - p.x), Abs(q.y - p.y);
            Small(a, b, Dev(a, b, i, j)) <==> Close(p, q, Point(p.x + sx * i, p.y + sy * j))
  {
    CrossIs(p, q, sx, sy, i, j);
  }

  lemma DevStart(a: int, b: int)
    requires 0 <= a && 0 <= b
    ensures Dev(a, b, 0, 0) == 0 && Small(a, b, 0)
  {
  }

  lemma Arrived(p: Point, q: Point, sx: int, sy: int, i: int, j: int)
    requires sx == (if p.x < q.x then 1 else -1) && sy == (if p.y < q.y then 1 else -1) && 0 <= i && 0 <= j
    requires p.x + sx * i == q.x && p.y + sy * j == q.y
    ensures i == Abs(q.x - p.x) && j == Abs(q.y - p.y)
  {
  }

  /** Before the longer side has run out the target is not reached, and the longer side has not run out. */
  lemma NotYet(p: Point, q: Point, sx: int, sy: int, i: int, j: int, guard: int)
    requires sx == (if p.x < q.x then 1 else -1) && sy == (if p.y < q.y then 1 else -1)
    requires var a, b := Abs(q.x - p.x), Abs(q.y - p.y);
             && (a >= b ==> i == guard) && (a < b ==> j == guard)
             && (a >= b && 0 < a && i == a ==> j == b) && (a < b && j == b ==> i == a)
             && (a == 0 && b == 0 ==> i == 0 && j == 0)
    requires guard <= Span(p, q) && !(p.x + sx * i == q.x && p.y + sy * j == q.y)
    ensures guard < Span(p, q) && 0 < Span(p, q)
  {
  }

  lemma StepIsNear(x: int, y: int, sx: int, sy: int)
    requires (sx == 1 || sx == -1) && (sy == 1 || sy == -1)
    ensures Neighbours(Point(x, y), Point(x + sx, y)) && Neighbours(Point(x, y), Point(x, y + sy)) && Neighbours(Point(x, y), Point(x + sx, y + sy))
  {
  }

  // ---------- circles ----------

  function Off(r: int, x: int, y: int): int {
    x * x + y * y - r * r
  }

  /** The eight mirror images of an octant point, in drawing order. */
  function Mirrors(cx: int, cy: int, x: int, y: int): seq<Point> {
    [Point(cx + x, cy + y), Point(cx + y, cy + x), Point(cx - y, cy + x), Point(cx - x, cy + y),
     Point(cx - x, cy - y), Point(cx - y, cy - x), Point(cx + y, cy - x), Point(cx + x, cy - y)]
  }

  /** Squared distance off the circle is at most the larger coordinate. */
  predicate OnRing(cx: int, cy: int, r: int, a: Point) {
    Abs(Off(r, a.x - cx, a.y - cy)) <= Max(Abs(a.x - cx), Abs(a.y - cy))
  }

  /** Row `k` of the first octant. */
  predicate InOctant(r: int, a: Point, k: int) {
    a.y == k <= a.x && Abs(Off(r, a.x, a.y)) <= a.x
  }

  predicate Beside(a: Point, b: Point) {
    a.x - 1 <= b.x <= a.x
  }

  /** The eight points are all the images of the octant point under swapping its coordinates and changing their signs, and no others. */
  lemma MirrorsAreAll(cx: int, cy: int, x: int, y: int, p: Point)
    ensures p in Mirrors(cx, cy, x, y) <==>
              || (Abs(p.x - cx) == Abs(x) && Abs(p.y - cy) == Abs(y))
              || (Abs(p.x - cx) == Abs(y) && Abs(p.y - cy) == Abs(x))
  {
    var ps := Mirrors(cx, cy, x, y);
    assert ps[0] == Point(cx + x, cy + y) && ps[1] == Point(cx + y, cy + x) && ps[2] == Point(cx - y, cy + x) && ps[3] == Point(cx - x, cy + y);
    assert ps[4] == Point(cx - x, cy - y) && ps[5] == Point(cx - y, cy - x) && ps[6] == Point(cx + y, cy - x) && ps[7] == Point(cx + x, cy - y);
  }

  lemma MirrorsOnRing(cx: int, cy: int, r: int, x: int, y: int)
    requires 0 <= y <= x && Abs(Off(r, x, y)) <= x
    ensures forall k :: 0 <= k < 8 ==> OnRing(cx, cy, r, Mirrors(cx, cy, x, y)[k])
  {
    assert Off(r, y, x) == Off(r, x, y) && Off(r, -x, y) == Off(r, x, y) && Off(r, x, -y) == Off(r, x, y);
    assert Off(r, -y, x) == Off(r, x, y) && Off(r, y, -x) == Off(r, x, y);
    assert Off(r, -x, -y) == Off(r, x, y) && Off(r, -y, -x) == Off(r, x, y);
  }

  /** One step of the octant keeps the point within its band. */
  lemma RingStep(r: int, x: int, y: int, err: int)
    requires 0 <= y <= x && err == Off(r, x, y) - x + 2 * y + 1 && Abs(Off(r, x, y)) <= x
    ensures err < 0 ==>
      err + 2 * (y + 1) + 1 == Off(r, x, y + 1) - x + 2 * (y + 1) + 1 && Abs(Off(r, x, y + 1)) <= x
    ensures err >= 0 ==>
      && err + 2 * (y + 1 - (x - 1)) + 1 == Off(r, x - 1, y + 1) - (x - 1) + 2 * (y + 1) + 1
      && (x - 1 >= y + 1 ==> Abs(Off(r, x - 1, y + 1)) <= x - 1)
  {
    assert Off(r, x, y + 1) == Off(r, x, y) + 2 * y + 1;
    assert Off(r, x - 1, y + 1) == Off(r, x, y) + 2 * y + 1 - 2 * x + 1;
  }

  /**
   Draws the circle. The octant runs from (r, 0) to the diagonal, one point per row, each in the
   next column or the same, and every pixel of all eight octants is on the ring.
   */
  method Ring(cx: int, cy: int, radius: int) returns (pts: seq<Point>, octant: seq<Point>)
    ensures |octant| > 0 && octant[0] == Point(Abs(radius), 0) && |pts| == 8 * |octant|
    ensures forall k :: 0 <= k < |octant| ==> InOctant(radius, octant[k], k)
    ensures forall k :: 0 <= k < |octant| - 1 ==> Beside(octant[k], octant[k + 1])
    ensures octant[|octant| - 1].x - 1 <= octant[|octant| - 1].y
    ensures forall k :: 0 <= k < |pts| ==> OnRing(cx, cy, radius, pts[k])
    ensures forall k :: 0 <= k < |octant| ==> pts[8 * k..8 * k + 8] == Mirrors(cx, cy, octant[k].x, octant[k].y)
  {
    hide OnRing, Mirrors, Off;
    var r := if radius < 0 then -radius else radius;
    var x, y, err := r, 0, 1 - r;
    OffStart(radius, r);
    pts, octant := [], [];
    while x >= y
      invariant 0 <= y && y - 2 <= x <= r && |octant| == y && |pts| == 8 * y
      invariant err == Off(radius, x, y) - x + 2 * y + 1
      invariant x >= y ==> Abs(Off(radius, x, y)) <= x
      invariant y == 0 ==> x == r
      invariant y > 0 ==> octant[0] == Point(r, 0) && octant[y - 1].x - 1 <= x <= octant[y - 1].x
      invariant forall k :: 0 <= k < |octant| ==> InOctant(radius, octant[k], k)
      invariant forall k :: 0 <= k < |octant| - 1 ==> Beside(octant[k], octant[k + 1])
      invariant forall k :: 0 <= k < |pts| ==> OnRing(cx, cy, radius, pts[k])
      invariant forall k :: 0 <= k < |octant| ==> pts[8 * k..8 * k + 8] == Mirrors(cx, cy, octant[k].x, octant[k].y)
      decreases x - y
    {
      MirrorsOnRing(cx, cy, radius, x, y);
      EightMirrors(cx, cy, x, y);
      Eighths(pts, octant, Mirrors(cx, cy, x, y));
      pts := pts + Mirrors(cx, cy, x, y);
      octant := octant + [Point(x, y)];
      RingStep(radius, x, y, err);
      y := y + 1;
      if err < 0 {
        err := err + 2 * y + 1;
      } else {
        x := x - 1;
        err := err + 2 * (y - x) + 1;
      }
    }
  }

  lemma OffStart(radius: int, r: int)
    requires r == radius || r == -radius
    ensures Off(radius, r, 0) == 0
  {
  }

  lemma Eighths(pts: seq<Point>, octant: seq<Point>, more: seq<Point>)
    requires |pts| == 8 * |octant| && |more| == 8
    ensures forall k :: 0 <= k < |octant| ==> (pts + more)[8 * k..8 * k + 8] == pts[8 * k..8 * k + 8]
    ensures (pts + more)[8 * |octant|..8 * |octant| + 8] == more
  {
  }

  lemma EightMirrors(cx: int, cy: int, x: int, y: int)
    ensures |Mirrors(cx, cy, x, y)| == 8
  {
  }
}
