/**
  internal/geo/geo.go: boundary-inclusive even-odd polygon containment, over exact reals.
  A zone's boundary is examined first, then a ray towards larger longitudes is crossed with every edge.
 */
module Geo {
  import opened Base

  const MAX_ZONE_VERTICES := 10000
  const CROSS_TOLERANCE: real := 0.000000000001

  datatype Position = Position(lat: real, lon: real)

  datatype ZoneKind = EEZ | RestrictedArea | UnknownKind(raw: string)

  datatype Zone = Zone(id: string, kind: ZoneKind, vertices: seq<Position>)

  predicate ValidPosition(p: Position) {
    -90.0 <= p.lat <= 90.0 && -180.0 <= p.lon <= 180.0
  }

  // vertices[(i+1)%count]
  function Next(vs: seq<Position>, i: nat): Position
    requires i < |vs|
  {
    if i + 1 == |vs| then vs[0] else vs[i + 1]
  }

  predicate ZoneIdentifier(s: string) {
    && 1 <= |s| <= 256
    && IsAlphanumeric(s[0])
    && forall i :: 1 <= i < |s| ==> IsAlphanumeric(s[i]) || s[i] in "._:-"
  }

  ghost predicate ValidZone(z: Zone) {
    && ZoneIdentifier(z.id)
    && !z.kind.UnknownKind?
    && 3 <= |z.vertices| <= MAX_ZONE_VERTICES
    && forall i :: 0 <= i < |z.vertices| ==> ValidPosition(z.vertices[i]) && z.vertices[i] != Next(z.vertices, i)
  }

  /** The zones that are taken, by their figures: the closing edge counts as an edge. */
  lemma ZonesExactly(z: Zone)
    ensures ValidZone(z) <==>
              && 1 <= |z.id| <= 256 && IsAlphanumeric(z.id[0])
              && (forall i :: 0 <= i < |z.id| ==> IsAlphanumeric(z.id[i]) || z.id[i] as int in {45, 46, 58, 95})
              && (z.kind == EEZ || z.kind == RestrictedArea)
              && 3 <= |z.vertices| <= 10_000
              && forall i :: 0 <= i < |z.vertices| ==>
                   && -90.0 <= z.vertices[i].lat <= 90.0 && -180.0 <= z.vertices[i].lon <= 180.0
                   && z.vertices[i] != z.vertices[(i + 1) % |z.vertices|]
  {
    ZoneIdentifiersExactly(z.id);
    forall i | 0 <= i < |z.vertices| ensures Next(z.vertices, i) == z.vertices[(i + 1) % |z.vertices|] {
      Successor(i, |z.vertices|);
    }
    hide ZoneIdentifier;
  }

  lemma Successor(i: nat, n: nat)
    requires i < n
    ensures (i + 1) % n == if i + 1 == n then 0 else i + 1
  {
  }

  lemma ZoneIdentifiersExactly(s: string)
    ensures ZoneIdentifier(s) <==>
              && 1 <= |s| <= 256 && IsAlphanumeric(s[0])
              && forall i :: 0 <= i < |s| ==> IsAlphanumeric(s[i]) || s[i] as int in {45, 46, 58, 95}
  {
    hide IsAlphanumeric;
    forall i | 0 <= i < |s| ensures s[i] in "._:-" <==> s[i] as int in {45, 46, 58, 95} {
      Punctuation(s[i]);
    }
  }

  method NewZone(id: string, kind: ZoneKind, vertices: seq<Position>) returns (r: Result<Zone, string>)
    ensures r.Ok? <==> ValidZone(Zone(id, kind, vertices))
    ensures r.Ok? ==> r.value == Zone(id, kind, vertices)
  {
    if !ZoneIdentifier(id) {
      return Err("zone_id must be a canonical identifier");
    }
    if kind != EEZ && kind != RestrictedArea {
      return Err("zone_kind must be eez or restricted");
    }
    if |vertices| < 3 || |vertices| > MAX_ZONE_VERTICES {
      return Err("zone polygon must contain between 3 and 10000 vertices");
    }
    for i := 0 to |vertices|
      invariant forall k :: 0 <= k < i ==> ValidPosition(vertices[k]) && vertices[k] != Next(vertices, k)
    {
      if !ValidPosition(vertices[i]) {
        return Err("coordinates out of range");
      }
      if vertices[i] == Next(vertices, i) {
        return Err("zone polygon must not repeat consecutive vertices");
      }
    }
    r := Ok(Zone(id, kind, vertices));
  }

  // ---------------------------------------------------------------------------
  // The two tests on one edge
  // ---------------------------------------------------------------------------

  function Abs(x: real): real {
    if x < 0.0 then -x else x
  }

  function Cross(dx: real, dy: real, ux: real, uy: real): real {
    dx * uy - dy * ux
  }

  function Dot(ux: real, uy: real, dx: real, dy: real): real {
    ux * dx + uy * dy
  }

  // The cross product of b - a with p - a: twice the signed area of the triangle a, b, p.
  function Weight(a: Position, b: Position, p: Position): real {
    Cross(b.lon - a.lon, b.lat - a.lat, p.lon - a.lon, p.lat - a.lat)
  }

  // (p - a) . (b - a)
  function Along(p: Position, a: Position, b: Position): real {
    Dot(p.lon - a.lon, p.lat - a.lat, b.lon - a.lon, b.lat - a.lat)
  }

  function SquaredLength(a: Position, b: Position): real {
    Dot(b.lon - a.lon, b.lat - a.lat, b.lon - a.lon, b.lat - a.lat)
  }

  function EdgeTolerance(a: Position, b: Position): real {
    CROSS_TOLERANCE * if SquaredLength(a, b) >= 1.0 then SquaredLength(a, b) else 1.0
  }

  /** pointOnSegment: within tolerance of the line, and between the perpendiculars at both ends. */
  predicate OnSegment(p: Position, a: Position, b: Position) {
    && Abs(Weight(a, b, p)) <= EdgeTolerance(a, b)
    && Along(p, a, b) >= 0.0
    && Along(p, b, a) >= 0.0
  }

  predicate Straddles(p: Position, a: Position, b: Position) {
    (a.lat > p.lat) != (b.lat > p.lat)
  }

  function RayMeets(p: Position, a: Position, b: Position): real
    requires a.lat != b.lat
  {
    a.lon + (p.lat - a.lat) * (b.lon - a.lon) / (b.lat - a.lat)
  }

  predicate Crosses(p: Position, a: Position, b: Position) {
    Straddles(p, a, b) && RayMeets(p, a, b) > p.lon
  }

  // ---------------------------------------------------------------------------
  // Whole polygons
  // ---------------------------------------------------------------------------

  /** The value of the toggle after walking along an open path. */
  function PathParity(p: Position, path: seq<Position>): bool {
    if |path| < 2 then false
    else PathParity(p, path[..|path| - 1]) != Crosses(p, path[|path| - 2], path[|path| - 1])
  }

  function Close(vs: seq<Position>): seq<Position>
    requires vs != []
  {
    vs + [vs[0]]
  }

  ghost predicate OnBoundary(p: Position, vs: seq<Position>) {
    exists i :: 0 <= i < |vs| && OnSegment(p, vs[i], Next(vs, i))
  }

  ghost predicate Inside(p: Position, vs: seq<Position>) {
    |vs| >= 3 && (OnBoundary(p, vs) || PathParity(p, Close(vs)))
  }

  method Contains(zone: Zone, p: Position) returns (r: bool)
    ensures r == Inside(p, zone.vertices)
  {
    var vs := zone.vertices;
    var count := |vs|;
    if count < 3 {
      return false;
    }
    for i := 0 to count
      invariant forall k :: 0 <= k < i ==> !OnSegment(p, vs[k], Next(vs, k))
    {
      if OnSegment(p, vs[i], Next(vs, i)) {
        return true;
      }
    }
    r := CrossingLoop(vs, p);
  }

  // The second loop of Contains: toggle once for every edge the ray crosses.
  method CrossingLoop(vs: seq<Position>, p: Position) returns (inside: bool)
    requires vs != []
    ensures inside == PathParity(p, Close(vs))
  {
    var count := |vs|;
    inside := false;
    ghost var cycle := Close(vs);
    for i := 0 to count
      invariant inside == PathParity(p, cycle[..i + 1])
    {
      var start, end := vs[i], Next(vs, i);
      assert start == cycle[i] && end == cycle[i + 1];
      assert cycle[..i + 2][..i + 1] == cycle[..i + 1];
      if Straddles(p, start, end) {
        if RayMeets(p, start, end) > p.lon {
          inside := !inside;
        }
      }
    }
    assert cycle[..count + 1] == cycle;
  }

  /** Every zone containing the position, in the order supplied. */
  ghost function Containing(p: Position, zones: seq<Zone>): seq<Zone> {
    if zones == [] then []
    else
      Containing(p, zones[..|zones| - 1])
      + if Inside(p, zones[|zones| - 1].vertices) then [zones[|zones| - 1]] else []
  }

  method ZonesContaining(p: Position, zones: seq<Zone>) returns (overlaps: seq<Zone>)
    ensures overlaps == Containing(p, zones)
  {
    overlaps := [];
    for i := 0 to |zones|
      invariant overlaps == Containing(p, zones[..i])
    {
      assert zones[..i + 1][..i] == zones[..i];
      var hit := Contains(zones[i], p);
      if hit {
        overlaps := overlaps + [zones[i]];
      }
    }
    assert zones[..|zones|] == zones;
  }

  lemma {:induction false} ContainingExact(p: Position, zones: seq<Zone>)
    ensures forall z :: z in Containing(p, zones) <==> z in zones && Inside(p, z.vertices)
  {
    if zones != [] {
      var rest := zones[..|zones| - 1];
      ContainingExact(p, rest);
      assert zones == rest + [zones[|zones| - 1]];
    }
  }

  // ---------------------------------------------------------------------------
  // One edge: the toggle does not depend on the direction of the edge
  // ---------------------------------------------------------------------------

  lemma DivideBack(n: real, d: real)
    requires d != 0.0
    ensures n / d * d == n
  {
  }

  lemma ScaledCompare(x: real, y: real, h: real)
    requires h != 0.0
    ensures h > 0.0 ==> (x > y <==> (x - y) * h > 0.0)
    ensures h < 0.0 ==> (x > y <==> (x - y) * h < 0.0)
  {
  }

  lemma MeetWeight(p: Position, a: Position, b: Position)
    requires a.lat != b.lat
    ensures (RayMeets(p, a, b) - p.lon) * (b.lat - a.lat) == Weight(a, b, p)
  {
    var h, n := b.lat - a.lat, (p.lat - a.lat) * (b.lon - a.lon);
    DivideBack(n, h);
    var q := n / h;
    assert RayMeets(p, a, b) == a.lon + q;
    assert (a.lon + q - p.lon) * h == q * h - (p.lon - a.lon) * h;
  }

  lemma CrossingSign(p: Position, a: Position, b: Position)
    requires Straddles(p, a, b)
    ensures Crosses(p, a, b) <==> if b.lat > a.lat then Weight(a, b, p) > 0.0 else Weight(a, b, p) < 0.0
  {
    MeetWeight(p, a, b);
    ScaledCompare(RayMeets(p, a, b), p.lon, b.lat - a.lat);
  }

  lemma ExpandProduct(x: real, y: real, z: real, u: real, v: real)
    requires u == x - y && v == -z
    ensures u * v == y * z - x * z
  {
  }

  // cross(b - a, -a) == cross(a, b)
  lemma CrossFromOrigin(ax: real, ay: real, bx: real, bY: real, dx: real, dy: real, ux: real, uy: real)
    requires dx == bx - ax && dy == bY - ay && ux == -ax && uy == -ay
    ensures Cross(dx, dy, ux, uy) == Cross(ax, ay, bx, bY)
  {
    ExpandProduct(bx, ax, ay, dx, uy);
    ExpandProduct(bY, ay, ax, dy, ux);
    assert dx * uy == ax * ay - bx * ay;
    assert dy * ux == ay * ax - bY * ax;
  }

  // The weight seen from p.
  lemma WeightFrom(a: Position, b: Position, p: Position)
    ensures Weight(a, b, p) == Cross(a.lon - p.lon, a.lat - p.lat, b.lon - p.lon, b.lat - p.lat)
  {
    var ax, ay, bx, bY := a.lon - p.lon, a.lat - p.lat, b.lon - p.lon, b.lat - p.lat;
    CrossFromOrigin(ax, ay, bx, bY, b.lon - a.lon, b.lat - a.lat, p.lon - a.lon, p.lat - a.lat);
  }

  lemma WeightReversed(a: Position, b: Position, p: Position)
    ensures Weight(b, a, p) == -Weight(a, b, p)
  {
    WeightFrom(a, b, p);
    WeightFrom(b, a, p);
  }

  lemma CrossesIsSymmetric(p: Position, a: Position, b: Position)
    ensures Crosses(p, a, b) == Crosses(p, b, a)
  {
    if Straddles(p, a, b) {
      CrossingSign(p, a, b);
      CrossingSign(p, b, a);
      WeightReversed(a, b, p);
    }
  }

  lemma DotOfOpposite(dx: real, dy: real)
    ensures Dot(-dx, -dy, -dx, -dy) == Dot(dx, dy, dx, dy)
  {
  }

  lemma OnSegmentIsSymmetric(p: Position, a: Position, b: Position)
    ensures OnSegment(p, a, b) == OnSegment(p, b, a)
  {
    WeightReversed(a, b, p);
    DotOfOpposite(b.lon - a.lon, b.lat - a.lat);
    assert a.lon - b.lon == -(b.lon - a.lon) && a.lat - b.lat == -(b.lat - a.lat);
    assert SquaredLength(a, b) == SquaredLength(b, a);
  }
}
