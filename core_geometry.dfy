/**
 * The integer geometry of the core helpers: the Manhattan "cell distance",
 * sorting an array of points in place by it, the direction codes of the
 * engine's number pad convention (2 down, 4 left, 6 right, 8 up) and the
 * Bresenham rasterisation of a line.
 */
module CoreGeometry {
  import opened Wrappers
  import ArrayMethods

  /** A map cell; `{x, y}` objects and `[x, y]` pairs read to the same two coordinates. */
  datatype Point = Point(x: int, y: int)

  function Abs(n: int): nat
  {
    if n < 0 then -n else n
  }

  function Max(a: int, b: int): int
  {
    if a < b then b else a
  }

  // ---------------------------------------------------------------------------
  // cellDistance

  /** `cellDistance(a, b)`: the number of orthogonal moves from one cell to the other. */
  function CellDistance(a: Point, b: Point): (d: nat)
    ensures d == 0 <==> a == b
    ensures d >= Abs(a.x - b.x) && d >= Abs(a.y - b.y)
  {
    Abs(a.x - b.x) + Abs(a.y - b.y)
  }

  /** The cell distance is a metric: symmetric, and no detour is shorter than the direct way. */
  lemma CellDistanceMetric(a: Point, b: Point, c: Point)
    ensures CellDistance(a, b) == CellDistance(b, a)
    ensures CellDistance(a, a) == 0
    ensures CellDistance(a, c) <= CellDistance(a, b) + CellDistance(b, c)
  {
  }

  // ---------------------------------------------------------------------------
  // sortByCellDistance, closestByCellDistance, farthestByCellDistance

  /** The sort key: the distance of the point (or of `prop` of it) to `obj`. */
  function DistanceTo(obj: Point, prop: Option<Point -> Point>): Point -> int
  {
    p => CellDistance(if prop.Some? then prop.value(p) else p, obj)
  }

  /**
   * `sortByCellDistance(obj, array, prop)`: sorts the array in place,
   * nearest first, stably, and returns it.
   */
  method SortByCellDistance(obj: Point, a: array<Point>, prop: Option<Point -> Point>)
    modifies a
    ensures a[..] == ArrayMethods.SortBy(old(a[..]), DistanceTo(obj, prop))
    ensures multiset(a[..]) == multiset(old(a[..]))
    ensures forall i, j :: 0 <= i < j < a.Length ==> DistanceTo(obj, prop)(a[i]) <= DistanceTo(obj, prop)(a[j])
  {
    var sorted := ArrayMethods.SortBy(a[..], DistanceTo(obj, prop));
    ArrayMethods.SortByIsSorted(a[..], DistanceTo(obj, prop));
    forall i | 0 <= i < a.Length {
      a[i] := sorted[i];
    }
    assert a[..] == sorted;
  }

  /** `closestByCellDistance(obj, array)`: the first point after the sort, undefined for an empty array. */
  method ClosestByCellDistance(obj: Point, a: array<Point>) returns (r: Option<Point>)
    modifies a
    ensures a[..] == ArrayMethods.SortBy(old(a[..]), DistanceTo(obj, None))
    ensures multiset(a[..]) == multiset(old(a[..]))
    ensures r.None? <==> a.Length == 0
    ensures r.Some? ==> r.value == a[0] && forall i :: 0 <= i < a.Length ==> CellDistance(r.value, obj) <= CellDistance(a[i], obj)
  {
    SortByCellDistance(obj, a, None);
    if a.Length == 0 {
      return None;
    }
    r := Some(a[0]);
  }

  /** `farthestByCellDistance(obj, array)`: the last point after the sort, undefined for an empty array. */
  method FarthestByCellDistance(obj: Point, a: array<Point>) returns (r: Option<Point>)
    modifies a
    ensures a[..] == ArrayMethods.SortBy(old(a[..]), DistanceTo(obj, None))
    ensures multiset(a[..]) == multiset(old(a[..]))
    ensures r.None? <==> a.Length == 0
    ensures r.Some? ==> r.value == a[a.Length - 1] && forall i :: 0 <= i < a.Length ==> CellDistance(r.value, obj) >= CellDistance(a[i], obj)
  {
    SortByCellDistance(obj, a, None);
    if a.Length == 0 {
      return None;
    }
    r := Some(a[a.Length - 1]);
  }

  /** The point the closest-search picks is the earliest of the nearest ones of the original array. */
  lemma ClosestIsEarliestNearest(obj: Point, s: seq<Point>) returns (i: nat)
    requires s != []
    ensures i < |s| && ArrayMethods.SortBy(s, DistanceTo(obj, None))[0] == s[i]
    ensures forall j :: 0 <= j < |s| ==> CellDistance(s[i], obj) <= CellDistance(s[j], obj)
    ensures forall j :: 0 <= j < i ==> CellDistance(s[j], obj) > CellDistance(s[i], obj)
  {
    i := ArrayMethods.SortedHead(s, DistanceTo(obj, None));
  }

  // ---------------------------------------------------------------------------
  // directionCodeToText, directionTextToCode

  /** `directionCodeToText(code)`; any other code gives null. */
  function DirectionCodeToText(code: int): (r: Option<string>)
    ensures r.Some? <==> code == 2 || code == 4 || code == 6 || code == 8
  {
    match code
    case 2 => Some("down")
    case 4 => Some("left")
    case 6 => Some("right")
    case 8 => Some("up")
    case _ => None
  }

  /** `directionTextToCode(text)`; any other text gives null. */
  function DirectionTextToCode(text: string): (r: Option<int>)
    ensures r.Some? <==> text == "down" || text == "left" || text == "right" || text == "up"
  {
    if text == "down" then Some(2)
    else if text == "left" then Some(4)
    else if text == "right" then Some(6)
    else if text == "up" then Some(8)
    else None
  }

  /** The two conversions are inverse to each other on the four directions. */
  lemma DirectionRoundTrips(code: int, text: string)
    ensures DirectionCodeToText(code).Some? ==> DirectionTextToCode(DirectionCodeToText(code).value) == Some(code)
    ensures DirectionTextToCode(text).Some? ==> DirectionCodeToText(DirectionTextToCode(text).value) == Some(text)
  {
  }

  // ---------------------------------------------------------------------------
  // getPixelsOfLine

  /** Two cells that touch, orthogonally or diagonally. */
  predicate Adjacent(p: Point, q: Point)
  {
    p != q && Abs(p.x - q.x) <= 1 && Abs(p.y - q.y) <= 1
  }

  /** Every cell of the sequence touches the next one. */
  ghost predicate Walk(pixels: seq<Point>)
  {
    forall k :: 0 <= k < |pixels| - 1 ==> Adjacent(pixels[k], pixels[k + 1])
  }

  lemma WalkSnoc(pixels: seq<Point>, p: Point)
    requires pixels != [] && Walk(pixels) && Adjacent(pixels[|pixels| - 1], p)
    ensures Walk(pixels + [p])
  {
    var r := pixels + [p];
    forall k | 0 <= k < |r| - 1 ensures Adjacent(r[k], r[k + 1]) {
      if k < |pixels| - 1 {
        assert r[k] == pixels[k] && r[k + 1] == pixels[k + 1];
      }
    }
  }

  /** Bresenham's error term after `a` steps along x and `b` along y. */
  function ErrorAfter(dx: nat, dy: nat, a: nat, b: nat): int
  {
    dx * (b + 1) - dy * (a + 1)
  }

  /** One step along x lowers the error by `dy`; one along y raises it by `dx`. */
  lemma ErrorStep(dx: nat, dy: nat, a: nat, b: nat)
    ensures ErrorAfter(dx, dy, a + 1, b) == ErrorAfter(dx, dy, a, b) - dy
    ensures ErrorAfter(dx, dy, a, b + 1) == ErrorAfter(dx, dy, a, b) + dx
    ensures ErrorAfter(dx, dy, a + 1, b + 1) == ErrorAfter(dx, dy, a, b) + dx - dy
  {
    assert dy * (a + 2) == dy * (a + 1) + dy;
    assert dx * (b + 2) == dx * (b + 1) + dx;
  }

  /** At the end column the error forbids another x step; at the end row, another y step. */
  lemma ErrorAtEdges(dx: nat, dy: nat, a: nat, b: nat)
    ensures a == dx && b < dy ==> 2 * ErrorAfter(dx, dy, a, b) <= -2 * dy
    ensures b == dy && a < dx ==> 2 * ErrorAfter(dx, dy, a, b) >= 2 * dx
  {
    if a == dx && b < dy {
      assert dx * (b + 1) <= dx * dy;
      assert dy * (dx + 1) == dy * dx + dy;
    }
    if b == dy && a < dx {
      assert dy * (a + 1) <= dy * dx;
      assert dx * (dy + 1) == dx * dy + dx;
    }
  }

  /**
   * `getPixelsOfLine(x0, y0, x1, y1)`: the cells of the line from the first
   * point to the second, each adjacent to the previous one, as many as the
   * longer axis is long plus one.
   */
  method GetPixelsOfLine(x0: int, y0: int, x1: int, y1: int) returns (pixels: seq<Point>)
    ensures pixels != [] && pixels[0] == Point(x0, y0) && pixels[|pixels| - 1] == Point(x1, y1)
    ensures |pixels| == Max(Abs(x1 - x0), Abs(y1 - y0)) + 1
    ensures forall k :: 0 <= k < |pixels| - 1 ==> Adjacent(pixels[k], pixels[k + 1])
  {
    var dx := Abs(x1 - x0);
    var dy := Abs(y1 - y0);
    var sx := if x0 < x1 then 1 else -1;
    var sy := if y0 < y1 then 1 else -1;
    var err := dx - dy;
    var x, y := x0, y0;
    ghost var a: nat, b: nat := 0, 0;
    pixels := [Point(x, y)];
    while !(x == x1 && y == y1)
      invariant a <= dx && b <= dy
      invariant x == (if sx == 1 then x0 + a else x0 - a) && y == (if sy == 1 then y0 + b else y0 - b)
      invariant err == ErrorAfter(dx, dy, a, b)
      invariant (a, b) != (dx, dy) && dx >= dy ==> 2 * err > -dy
      invariant (a, b) != (dx, dy) && dy >= dx ==> 2 * err < dx
      invariant |pixels| == (if dx >= dy then a else b) + 1
      invariant pixels[0] == Point(x0, y0) && pixels[|pixels| - 1] == Point(x, y)
      invariant Walk(pixels)
      decreases dx - a + dy - b
    {
      ErrorAtEdges(dx, dy, a, b);
      ErrorStep(dx, dy, a, b);
      var e2 := 2 * err;
      var prev := Point(x, y);
      if e2 > -dy {
        err := err - dy;
        x := x + sx;
        a := a + 1;
      }
      if e2 < dx {
        err := err + dx;
        y := y + sy;
        b := b + 1;
      }
      WalkSnoc(pixels, Point(x, y));
      pixels := pixels + [Point(x, y)];
    }
  }
}
