/** Geometry of the live map view (front/components/LiveMap.tsx). */
module LiveMap {
  import opened Common
  import opened Stats
  import Theme

  datatype Phase = MappingPhase | CuttingPhase | CompletedPhase

  function PhaseColor(p: Phase): string
  {
    match p
    case MappingPhase => Theme.Info
    case CuttingPhase => Theme.Success
    case CompletedPhase => Theme.Primary
  }

  function PhaseLabel(p: Phase): string
  {
    match p
    case MappingPhase => "Mapeando área"
    case CuttingPhase => "Cortando césped"
    case CompletedPhase => "Sesión completada"
  }

  /** Distinct phases get distinct colours and labels. */
  lemma PhaseDisplayInjective(p: Phase, q: Phase)
    requires p != q
    ensures PhaseColor(p) != PhaseColor(q) && PhaseLabel(p) != PhaseLabel(q)
  {
  }

  datatype Box = Box(minX: real, maxX: real, minY: real, maxY: real)

  function Xs(ps: seq<Position>): (r: seq<real>)
    ensures |r| == |ps|
    ensures forall i :: 0 <= i < |ps| ==> r[i] == ps[i].x
  {
    seq(|ps|, i requires 0 <= i < |ps| => ps[i].x)
  }

  function Ys(ps: seq<Position>): (r: seq<real>)
    ensures |r| == |ps|
    ensures forall i :: 0 <= i < |ps| ==> r[i] == ps[i].y
  {
    seq(|ps|, i requires 0 <= i < |ps| => ps[i].y)
  }

  /** The extent of the mapping path; an empty path stands for the origin. */
  function BoundingBox(path: seq<Position>): (b: Box)
    ensures |path| == 0 ==> b == Box(0.0, 0.0, 0.0, 0.0)
    ensures forall i :: 0 <= i < |path| ==> b.minX <= path[i].x <= b.maxX && b.minY <= path[i].y <= b.maxY
    ensures |path| > 0 ==> exists i :: 0 <= i < |path| && path[i].x == b.minX
    ensures |path| > 0 ==> exists i :: 0 <= i < |path| && path[i].x == b.maxX
    ensures |path| > 0 ==> exists i :: 0 <= i < |path| && path[i].y == b.minY
    ensures |path| > 0 ==> exists i :: 0 <= i < |path| && path[i].y == b.maxY
  {
    var allPoints := if |path| > 0 then path else [Position(0.0, 0.0, 0)];
    var xs, ys := Xs(allPoints), Ys(allPoints);
    Box(Min(xs), Max(xs), Min(ys), Max(ys))
  }

  /** `Math.max(range, 1)`: never below 1, so the scale never divides by zero. */
  function Divisor(range: real): (d: real)
    ensures d >= 1.0 && d >= range
    ensures d == range || d == 1.0
  {
    if range > 1.0 then range else 1.0
  }

  function ScaleX(b: Box, mapSize: real, x: real): real
  {
    ((x - b.minX) / Divisor(b.maxX - b.minX)) * (mapSize - 10.0)
  }

  function ScaleY(b: Box, mapSize: real, y: real): real
  {
    ((y - b.minY) / Divisor(b.maxY - b.minY)) * (mapSize - 10.0)
  }

  /** The box's lower corner is drawn at the origin of the map. */
  lemma ScaleAtMinimum(b: Box, mapSize: real)
    ensures ScaleX(b, mapSize, b.minX) == 0.0 && ScaleY(b, mapSize, b.minY) == 0.0
  {
  }

  /** A coordinate between lo and hi scales into [0, mapSize - 10]. */
  lemma ScaleWithin(lo: real, hi: real, v: real, mapSize: real)
    requires lo <= v <= hi
    requires mapSize >= 10.0
    ensures 0.0 <= ((v - lo) / Divisor(hi - lo)) * (mapSize - 10.0) <= mapSize - 10.0
  {
    var d := Divisor(hi - lo);
    var t := (v - lo) / d;
    assert d * 0.0 == 0.0 && d * 1.0 == d;
    assert 0.0 <= v - lo <= d;
    QuotientBetween(v - lo, d, 0.0, 1.0);
    assert 0.0 <= t <= 1.0;
    var m := mapSize - 10.0;
    assert 0.0 * m <= t * m <= 1.0 * m;
    assert ((v - lo) / Divisor(hi - lo)) * (mapSize - 10.0) == t * m;
  }

  /** Scaling preserves order on both axes when the map is at least 10 wide. */
  lemma ScaleMonotone(b: Box, mapSize: real, u: real, v: real)
    requires u <= v
    requires mapSize >= 10.0
    ensures ScaleX(b, mapSize, u) <= ScaleX(b, mapSize, v)
    ensures ScaleY(b, mapSize, u) <= ScaleY(b, mapSize, v)
  {
    ScaleOrdered(b.minX, b.maxX, u, v, mapSize);
    ScaleOrdered(b.minY, b.maxY, u, v, mapSize);
  }

  lemma ScaleOrdered(lo: real, hi: real, u: real, v: real, mapSize: real)
    requires u <= v
    requires mapSize >= 10.0
    ensures ((u - lo) / Divisor(hi - lo)) * (mapSize - 10.0) <= ((v - lo) / Divisor(hi - lo)) * (mapSize - 10.0)
  {
    var d := Divisor(hi - lo);
    var a, c := (u - lo) / d, (v - lo) / d;
    assert a * d == u - lo && c * d == v - lo;
    CancelPositive(a, c, d);
    assert a * (mapSize - 10.0) <= c * (mapSize - 10.0);
  }

  /** Every point of the mapping path is drawn inside the map square. */
  lemma {:induction false} MappingPointsInsideMap(path: seq<Position>, mapSize: real, i: nat)
    requires i < |path|
    requires mapSize >= 10.0
    ensures var b := BoundingBox(path);
            0.0 <= ScaleX(b, mapSize, path[i].x) <= mapSize - 10.0
            && 0.0 <= ScaleY(b, mapSize, path[i].y) <= mapSize - 10.0
  {
    var b := BoundingBox(path);
    ScaleXWithin(b, mapSize, path[i].x);
    ScaleYWithin(b, mapSize, path[i].y);
  }

  lemma ScaleXWithin(b: Box, mapSize: real, x: real)
    requires b.minX <= x <= b.maxX
    requires mapSize >= 10.0
    ensures 0.0 <= ScaleX(b, mapSize, x) <= mapSize - 10.0
  {
    ScaleWithin(b.minX, b.maxX, x, mapSize);
  }

  lemma ScaleYWithin(b: Box, mapSize: real, y: real)
    requires b.minY <= y <= b.maxY
    requires mapSize >= 10.0
    ensures 0.0 <= ScaleY(b, mapSize, y) <= mapSize - 10.0
  {
    ScaleWithin(b.minY, b.maxY, y, mapSize);
  }

  /** The scaled points of the filled polygon, in path order. */
  function PolygonPoints(path: seq<Position>, mapSize: real): (pts: seq<(real, real)>)
    ensures |pts| == |path|
    ensures forall i :: 0 <= i < |pts| ==> pts[i] == (ScaleX(BoundingBox(path), mapSize, path[i].x), ScaleY(BoundingBox(path), mapSize, path[i].y))
    ensures mapSize >= 10.0 ==> forall i :: 0 <= i < |pts| ==> 0.0 <= pts[i].0 <= mapSize - 10.0 && 0.0 <= pts[i].1 <= mapSize - 10.0
  {
    var b := BoundingBox(path);
    var pts := seq(|path|, i requires 0 <= i < |path| => (ScaleX(b, mapSize, path[i].x), ScaleY(b, mapSize, path[i].y)));
    assert mapSize >= 10.0 ==> forall i :: 0 <= i < |pts| ==> 0.0 <= pts[i].0 <= mapSize - 10.0 && 0.0 <= pts[i].1 <= mapSize - 10.0 by {
      if mapSize >= 10.0 {
        forall i | 0 <= i < |pts|
          ensures 0.0 <= pts[i].0 <= mapSize - 10.0 && 0.0 <= pts[i].1 <= mapSize - 10.0
        {
          MappingPointsInsideMap(path, mapSize, i);
        }
      }
    }
    pts
  }

  /** The filled area is drawn only for more than two mapping points. */
  predicate DrawsPolygon(path: seq<Position>)
  {
    |path| > 2
  }
}
