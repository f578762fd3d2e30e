// Polygon algebra of the local map: even-odd ray-cast containment and the
// polygon-polygon overlap test built from vertex containment and a segment
// straddle test (modules/local_map/models.py, class Region).
module Geometry {
  import opened Wrappers

  /** A pixel position on the base map image. */
  datatype Point = Point(x: real, y: real)

  /** A closed polygon given by its vertices in order; the last joins the first. */
  datatype Region = Region(points: seq<Point>)

  /** The exceptions a call can raise. */
  datatype PyError = NameError

  function Min(a: real, b: real): real { if a <= b then a else b }
  function Max(a: real, b: real): real { if a >= b then a else b }

  /** Indices 1..n taken modulo n: the last one wraps to vertex 0. */
  lemma WrapIndex(i: int, n: int)
    requires 1 <= i <= n
    ensures i % n == if i < n then i else 0
  {
  }

  /** Vertex k and its successor, wrapping around. */
  function EdgeStart(pts: seq<Point>, k: nat): Point
    requires k < |pts|
  {
    pts[k]
  }

  function EdgeEnd(pts: seq<Point>, k: nat): Point
    requires k < |pts|
  {
    pts[(k + 1) % |pts|]
  }

  /** x-coordinate where the horizontal line at height y meets the line through p1 and p2. */
  function XInters(p1: Point, p2: Point, y: real): real
    requires p1.y != p2.y
  {
    (y - p1.y) * (p2.x - p1.x) / (p2.y - p1.y) + p1.x
  }

  /**
   * Geometric meaning of one ray-cast step: the horizontal ray going right from
   * (x, y) meets the non-horizontal edge p1-p2, whose y-span is taken half-open
   * as (min, max].
   */
  predicate RayHits(p1: Point, p2: Point, x: real, y: real)
  {
    p1.y != p2.y && Min(p1.y, p2.y) < y <= Max(p1.y, p2.y) && x <= XInters(p1, p2, y)
  }

  /** The guard chain the loop body evaluates, in the order it evaluates it. */
  predicate Toggles(p1: Point, p2: Point, x: real, y: real)
  {
    y > Min(p1.y, p2.y) && y <= Max(p1.y, p2.y) && x <= Max(p1.x, p2.x)
    && (p1.x == p2.x || x <= XInters(p1, p2, y))
  }

  /** The crossing of a spanned edge lies between the edge's end x-coordinates. */
  lemma XIntersBetween(p1: Point, p2: Point, y: real)
    requires p1.y != p2.y && Min(p1.y, p2.y) < y <= Max(p1.y, p2.y)
    ensures Min(p1.x, p2.x) <= XInters(p1, p2, y) <= Max(p1.x, p2.x)
  {
    var dy := p2.y - p1.y;
    var t := (y - p1.y) / dy;
    assert t * dy == y - p1.y;
    assert 0.0 <= t <= 1.0;
    assert (y - p1.y) * (p2.x - p1.x) / dy == t * (p2.x - p1.x);
    var w := p2.x - p1.x;
    assert XInters(p1, p2, y) == t * w + p1.x;
    if w >= 0.0 {
      assert 0.0 <= t * w <= w by {
        assert t * w <= 1.0 * w;
      }
    } else {
      assert w <= t * w <= 0.0 by {
        assert t * w >= 1.0 * w;
      }
    }
  }

  /**
   * The loop's guard chain toggles exactly when the rightward ray hits the
   * edge: the extra bounding test on max(x) and the vertical-edge shortcut
   * change nothing, and a horizontal edge never toggles.
   */
  lemma ToggleIffRayHit(p1: Point, p2: Point, x: real, y: real)
    ensures Toggles(p1, p2, x, y) <==> RayHits(p1, p2, x, y)
  {
    if Min(p1.y, p2.y) < y <= Max(p1.y, p2.y) {
      XIntersBetween(p1, p2, y);
      if p1.x == p2.x {
        assert XInters(p1, p2, y) == p1.x by {
          assert (y - p1.y) * (p2.x - p1.x) == 0.0;
        }
      }
    }
  }

  /** Number of the first k edges that the rightward ray from (x, y) hits. */
  function HitCount(pts: seq<Point>, k: nat, x: real, y: real): nat
    requires k <= |pts|
  {
    if k == 0 then 0
    else HitCount(pts, k - 1, x, y) + (if RayHits(EdgeStart(pts, k - 1), EdgeEnd(pts, k - 1), x, y) then 1 else 0)
  }

  /** The ray from (x, y) has hit an odd number of the first k edges. */
  predicate OddHits(pts: seq<Point>, k: nat, x: real, y: real)
    requires k <= |pts|
  {
    k > 0 && (OddHits(pts, k - 1, x, y) != RayHits(EdgeStart(pts, k - 1), EdgeEnd(pts, k - 1), x, y))
  }

  lemma {:induction false} OddHitsIsParity(pts: seq<Point>, k: nat, x: real, y: real)
    requires k <= |pts|
    ensures OddHits(pts, k, x, y) <==> HitCount(pts, k, x, y) % 2 == 1
  {
    if k > 0 {
      OddHitsIsParity(pts, k - 1, x, y);
    }
  }

  /** Even-odd rule: a polygon of at least 3 vertices contains the point iff the ray hits an odd number of edges. */
  predicate Contains(r: Region, x: real, y: real)
  {
    |r.points| >= 3 && HitCount(r.points, |r.points|, x, y) % 2 == 1
  }

  /**
   * One pass of the loop body of Region.contains_point over the edge p1-p2:
   * the nested guards, the crossing computed only for a non-horizontal edge
   * (otherwise the previous value is kept), and the toggle.
   */
  method EdgeStep(p1: Point, p2: Point, mapX: real, mapY: real, inside: bool, xinters: real)
    returns (inside': bool, xinters': real)
    ensures inside' == (inside != RayHits(p1, p2, mapX, mapY))
  {
    inside', xinters' := inside, xinters;
    if mapY > Min(p1.y, p2.y) {
      if mapY <= Max(p1.y, p2.y) {
        if mapX <= Max(p1.x, p2.x) {
          if p1.y != p2.y {
            xinters' := XInters(p1, p2, mapY);
          }
          if p1.x == p2.x || mapX <= xinters' {
            inside' := !inside';
          }
        }
      }
    }
    ToggleIffRayHit(p1, p2, mapX, mapY);
  }

  /**
   * Region.contains_point: walks the closed polygon once (edges 0..n-1, the
   * last one closing back to vertex 0), toggling on every edge the ray hits.
   */
  method ContainsPoint(region: Region, mapX: real, mapY: real) returns (inside: bool)
    ensures inside <==> Contains(region, mapX, mapY)
  {
    var n := |region.points|;
    if n < 3 {
      return false;
    }
    inside := false;
    var p1 := region.points[0];
    var xinters := 0.0;
    var i := 1;
    while i <= n
      invariant 1 <= i <= n + 1
      invariant i <= n ==> p1 == region.points[i - 1]
      invariant inside == OddHits(region.points, i - 1, mapX, mapY)
    {
      WrapIndex(i, n);
      var p2 := region.points[i % n];
      assert EdgeStart(region.points, i - 1) == p1 && EdgeEnd(region.points, i - 1) == p2;
      inside, xinters := EdgeStep(p1, p2, mapX, mapY, inside, xinters);
      p1 := p2;
      i := i + 1;
    }
    OddHitsIsParity(region.points, n, mapX, mapY);
  }

  /** cross_product(o, a, b): the z-component of (a - o) x (b - o). */
  function Cross(o: Point, a: Point, b: Point): real
  {
    (a.x - o.x) * (b.y - o.y) - (a.y - o.y) * (b.x - o.x)
  }

  predicate OppositeSigns(u: real, v: real)
  {
    (u > 0.0 && v < 0.0) || (u < 0.0 && v > 0.0)
  }

  /** p1 and p2 lie strictly on opposite sides of line p3-p4, and p3, p4 strictly on opposite sides of line p1-p2. */
  predicate StrictStraddle(p1: Point, p2: Point, p3: Point, p4: Point)
  {
    OppositeSigns(Cross(p3, p4, p1), Cross(p3, p4, p2)) && OppositeSigns(Cross(p1, p2, p3), Cross(p1, p2, p4))
  }

  /** Some endpoint is collinear with the other segment. */
  predicate SomeCollinear(p1: Point, p2: Point, p3: Point, p4: Point)
  {
    Cross(p3, p4, p1) == 0.0 || Cross(p3, p4, p2) == 0.0 || Cross(p1, p2, p3) == 0.0 || Cross(p1, p2, p4) == 0.0
  }

  /** Region._on_segment(p, q, r): q lies in the bounding box of p and r. */
  predicate OnSegment(p: Point, q: Point, r: Point)
  {
    q.x <= Max(p.x, r.x) && q.x >= Min(p.x, r.x) && q.y <= Max(p.y, r.y) && q.y >= Min(p.y, r.y)
  }

  /** Some endpoint is collinear with the other segment and lies within its bounding box. */
  predicate EndpointContact(p1: Point, p2: Point, p3: Point, p4: Point)
  {
    || (Cross(p3, p4, p1) == 0.0 && OnSegment(p3, p1, p4))
    || (Cross(p3, p4, p2) == 0.0 && OnSegment(p3, p2, p4))
    || (Cross(p1, p2, p3) == 0.0 && OnSegment(p1, p3, p2))
    || (Cross(p1, p2, p4) == 0.0 && OnSegment(p1, p4, p2))
  }

  /**
   * Region._segments_intersect as written. It is a staticmethod, so its
   * collinear-endpoint checks evaluate `self._on_segment` with no `self` in
   * scope: once the straddle test fails, the first check whose cross product
   * is exactly 0 raises NameError before _on_segment runs.
   */
  function SegmentsIntersect(p1: Point, p2: Point, p3: Point, p4: Point): (r: Result<bool, PyError>)
    ensures r == Ok(true) <==> StrictStraddle(p1, p2, p3, p4)
    ensures r.Err? <==> !StrictStraddle(p1, p2, p3, p4) && SomeCollinear(p1, p2, p3, p4)
  {
    var d1 := Cross(p3, p4, p1);
    var d2 := Cross(p3, p4, p2);
    var d3 := Cross(p1, p2, p3);
    var d4 := Cross(p1, p2, p4);
    if ((d1 > 0.0 && d2 < 0.0) || (d1 < 0.0 && d2 > 0.0)) && ((d3 > 0.0 && d4 < 0.0) || (d3 < 0.0 && d4 > 0.0)) then Ok(true)
    else if d1 == 0.0 then Err(NameError)
    else if d2 == 0.0 then Err(NameError)
    else if d3 == 0.0 then Err(NameError)
    else if d4 == 0.0 then Err(NameError)
    else Ok(false)
  }

  /**
   * The test as its docstring intends it: the straddle test, then each
   * collinear endpoint counted when it lies on the other segment.
   */
  function SegmentsIntersectFixed(p1: Point, p2: Point, p3: Point, p4: Point): (r: bool)
    ensures SegmentsIntersect(p1, p2, p3, p4).Ok? ==> r == SegmentsIntersect(p1, p2, p3, p4).value
    ensures Cross(p3, p4, p1) == 0.0 && OnSegment(p3, p1, p4) ==> r
    ensures Cross(p3, p4, p2) == 0.0 && OnSegment(p3, p2, p4) ==> r
    ensures Cross(p1, p2, p3) == 0.0 && OnSegment(p1, p3, p2) ==> r
    ensures Cross(p1, p2, p4) == 0.0 && OnSegment(p1, p4, p2) ==> r
    ensures r ==> StrictStraddle(p1, p2, p3, p4) || EndpointContact(p1, p2, p3, p4)
    ensures !StrictStraddle(p1, p2, p3, p4) && !SomeCollinear(p1, p2, p3, p4) ==> !r
  {
    var d1 := Cross(p3, p4, p1);
    var d2 := Cross(p3, p4, p2);
    var d3 := Cross(p1, p2, p3);
    var d4 := Cross(p1, p2, p4);
    (((d1 > 0.0 && d2 < 0.0) || (d1 < 0.0 && d2 > 0.0)) && ((d3 > 0.0 && d4 < 0.0) || (d3 < 0.0 && d4 > 0.0)))
    || (d1 == 0.0 && OnSegment(p3, p1, p4))
    || (d2 == 0.0 && OnSegment(p3, p2, p4))
    || (d3 == 0.0 && OnSegment(p1, p3, p2))
    || (d4 == 0.0 && OnSegment(p1, p4, p2))
  }

  /**
   * A T-junction: the vertical segment (1,0)-(1,1) stands on the horizontal
   * segment (0,0)-(2,0). The as-written test raises NameError.
   */
  lemma TouchingSegmentsRaise()
    ensures SegmentsIntersect(Point(1.0, 0.0), Point(1.0, 1.0), Point(0.0, 0.0), Point(2.0, 0.0)) == Err(NameError)
  {
    assert Cross(Point(0.0, 0.0), Point(2.0, 0.0), Point(1.0, 0.0)) == 0.0;
  }

  /**
   * Every contact where an endpoint of the first segment lies on the second
   * raises NameError as written, and is reported as an intersection by the
   * intended test.
   */
  lemma EndpointContactRaises(p1: Point, p2: Point, p3: Point, p4: Point)
    requires Cross(p3, p4, p1) == 0.0 && OnSegment(p3, p1, p4)
    ensures SegmentsIntersect(p1, p2, p3, p4) == Err(NameError)
    ensures SegmentsIntersectFixed(p1, p2, p3, p4)
  {
  }

  /** The segment test applied to edge i of a and edge j of b. */
  function EdgeTest(a: seq<Point>, b: seq<Point>, i: nat, j: nat): Result<bool, PyError>
    requires i < |a| && j < |b|
  {
    SegmentsIntersect(EdgeStart(a, i), EdgeEnd(a, i), EdgeStart(b, j), EdgeEnd(b, j))
  }

  /** (i', j') comes at or after (i, j) in the nested loops' row-major order. */
  predicate AtOrAfter(i': int, j': int, i: int, j: int)
  {
    i' > i || (i' == i && j' >= j)
  }

  /**
   * The nested edge loops of intersects_with from pair (i, j) on: the first
   * pair whose test does not return False decides (True, or the exception);
   * when every pair returns False the loops fall through.
   */
  function ScanEdges(a: seq<Point>, b: seq<Point>, i: nat, j: nat): (r: Result<bool, PyError>)
    requires i <= |a| && j <= |b|
    ensures r == Ok(false) <==>
      forall i', j' :: 0 <= i' < |a| && 0 <= j' < |b| && AtOrAfter(i', j', i, j) ==> EdgeTest(a, b, i', j') == Ok(false)
    ensures r != Ok(false) ==>
      exists i', j' :: 0 <= i' < |a| && 0 <= j' < |b| && AtOrAfter(i', j', i, j) && EdgeTest(a, b, i', j') == r
    decreases |a| - i, |b| - j
  {
    if i == |a| then Ok(false)
    else if j == |b| then ScanEdges(a, b, i + 1, 0)
    else
      var t := EdgeTest(a, b, i, j);
      if t == Ok(false) then ScanEdges(a, b, i, j + 1) else t
  }

  /** Some vertex of a lies inside b. */
  predicate SomeVertexInside(a: Region, b: Region)
  {
    exists i :: 0 <= i < |a.points| && Contains(b, a.points[i].x, a.points[i].y)
  }

  /**
   * Region.intersects_with: a vertex of self inside other, then a vertex of
   * other inside self, then every wrap-around edge pair; an exception from
   * the segment test propagates.
   */
  function IntersectsWith(self: Region, other: Region): (r: Result<bool, PyError>)
    ensures SomeVertexInside(self, other) || SomeVertexInside(other, self) ==> r == Ok(true)
    ensures r == Ok(false) <==>
      !SomeVertexInside(self, other) && !SomeVertexInside(other, self) &&
      forall i, j :: 0 <= i < |self.points| && 0 <= j < |other.points| ==> EdgeTest(self.points, other.points, i, j) == Ok(false)
    ensures r.Err? ==>
      exists i, j :: 0 <= i < |self.points| && 0 <= j < |other.points| && EdgeTest(self.points, other.points, i, j).Err?
  {
    if SomeVertexInside(self, other) then Ok(true)
    else if SomeVertexInside(other, self) then Ok(true)
    else ScanEdges(self.points, other.points, 0, 0)
  }
}
