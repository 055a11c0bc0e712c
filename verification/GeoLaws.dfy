/** What the even-odd loop of internal/geo/geo.go means: splitting, invariance, bounding box, triangles. */
module GeoLaws {
  import opened Geo

  // ---------------------------------------------------------------------------
  // Paths
  // ---------------------------------------------------------------------------

  /** Walking a path in two legs: the toggles add up. */
  lemma {:induction false} PathSplits(p: Position, left: seq<Position>, m: Position, right: seq<Position>)
    ensures PathParity(p, left + [m] + right) == (PathParity(p, left + [m]) != PathParity(p, [m] + right))
    decreases |right|
  {
    if right == [] {
      assert left + [m] + right == left + [m];
      assert [m] + right == [m];
    } else {
      var path, leg := left + [m] + right, [m] + right;
      var front, last := right[..|right| - 1], right[|right| - 1];
      assert path[..|path| - 1] == left + [m] + front;
      assert leg[..|leg| - 1] == [m] + front;
      assert path[|path| - 2] == leg[|leg| - 2];
      PathSplits(p, left, m, front);
    }
  }

  function Reversed(s: seq<Position>): (r: seq<Position>)
    ensures |r| == |s|
    ensures forall i :: 0 <= i < |s| ==> r[i] == s[|s| - 1 - i]
  {
    if s == [] then [] else [s[|s| - 1]] + Reversed(s[..|s| - 1])
  }

  lemma {:induction false} PathReversed(p: Position, path: seq<Position>)
    ensures PathParity(p, Reversed(path)) == PathParity(p, path)
    decreases |path|
  {
    if |path| >= 2 {
      var front, a, b := path[..|path| - 1], path[|path| - 2], path[|path| - 1];
      var back := Reversed(front);
      PathReversed(p, front);
      assert back[0] == a;
      assert Reversed(path) == [] + [b] + [a] + back[1..];
      PathSplits(p, [b], a, back[1..]);
      assert [a] + back[1..] == back;
      assert [b] + [a] == [b, a];
      assert PathParity(p, [b, a]) == Crosses(p, b, a) by {
        assert [b, a][..1] == [b];
      }
      CrossesIsSymmetric(p, a, b);
      assert [b] + [a] + back[1..] == Reversed(path);
    }
  }

  // ---------------------------------------------------------------------------
  // Closed polygons: chords cancel
  // ---------------------------------------------------------------------------

  function Parity(p: Position, vs: seq<Position>): bool
    requires vs != []
  {
    PathParity(p, Close(vs))
  }

  lemma TwoPoint(p: Position, a: Position, b: Position)
    ensures PathParity(p, [a, b]) == Crosses(p, a, b)
  {
    assert [a, b][..1] == [a];
  }

  /** Cutting a polygon along the chord from its first vertex u to any other vertex v. */
  lemma ChordSplits(p: Position, u: Position, left: seq<Position>, v: Position, right: seq<Position>)
    ensures Parity(p, [u] + left + [v] + right) == (Parity(p, [u] + left + [v]) != Parity(p, [u, v] + right))
  {
    var whole := Close([u] + left + [v] + right);
    assert whole == ([u] + left) + [v] + (right + [u]);
    PathSplits(p, [u] + left, v, right + [u]);
    var first := Close([u] + left + [v]);
    assert first == ([u] + left) + [v] + [u];
    PathSplits(p, [u] + left, v, [u]);
    assert [v] + [u] == [v, u];
    TwoPoint(p, v, u);
    var second := Close([u, v] + right);
    assert second == [u] + [v] + (right + [u]);
    PathSplits(p, [u], v, right + [u]);
    assert [u] + [v] == [u, v];
    TwoPoint(p, u, v);
    CrossesIsSymmetric(p, u, v);
  }

  /** Exclusive or of the triangles from u over the consecutive pairs of `rest`. */
  function Fan(p: Position, u: Position, rest: seq<Position>): bool {
    if |rest| < 2 then false
    else Parity(p, [u, rest[0], rest[1]]) != Fan(p, u, rest[1..])
  }

  lemma DigonIsEmpty(p: Position, a: Position, b: Position)
    ensures !Parity(p, [a, b])
  {
    assert Close([a, b]) == [a] + [b] + [a];
    PathSplits(p, [a], b, [a]);
    assert [a] + [b] == [a, b] && [b] + [a] == [b, a];
    TwoPoint(p, a, b);
    TwoPoint(p, b, a);
    CrossesIsSymmetric(p, a, b);
  }

  /** The crossing loop of any polygon is the exclusive or over its fan of triangles. */
  lemma {:induction false} EvenOddIsFan(p: Position, u: Position, rest: seq<Position>)
    requires rest != []
    ensures Parity(p, [u] + rest) == Fan(p, u, rest)
    decreases |rest|
  {
    if |rest| == 1 {
      assert [u] + rest == [u, rest[0]];
      DigonIsEmpty(p, u, rest[0]);
    } else {
      var a, b := rest[0], rest[1];
      assert [u] + rest == [u] + [a] + [b] + rest[2..];
      ChordSplits(p, u, [a], b, rest[2..]);
      assert [u] + [a] + [b] == [u, a, b];
      assert [u, b] + rest[2..] == [u] + rest[1..];
      EvenOddIsFan(p, u, rest[1..]);
    }
  }

  // ---------------------------------------------------------------------------
  // Triangles: the crossing loop is exactly strict containment off the edges
  // ---------------------------------------------------------------------------

  ghost predicate StrictlyInside(p: Position, a: Position, b: Position, c: Position) {
    || (Weight(a, b, p) > 0.0 && Weight(b, c, p) > 0.0 && Weight(c, a, p) > 0.0)
    || (Weight(a, b, p) < 0.0 && Weight(b, c, p) < 0.0 && Weight(c, a, p) < 0.0)
  }

  ghost predicate OffEdgeLines(p: Position, a: Position, b: Position, c: Position) {
    Weight(a, b, p) != 0.0 && Weight(b, c, p) != 0.0 && Weight(c, a, p) != 0.0
  }

  lemma CrossBalance(ax: real, ay: real, bx: real, bY: real, cx: real, cy: real)
    ensures Cross(bx, bY, cx, cy) * ay + Cross(cx, cy, ax, ay) * bY + Cross(ax, ay, bx, bY) * cy == 0.0
  {
    assert Cross(bx, bY, cx, cy) * ay == bx * cy * ay - bY * cx * ay;
    assert Cross(cx, cy, ax, ay) * bY == cx * ay * bY - cy * ax * bY;
    assert Cross(ax, ay, bx, bY) * cy == ax * bY * cy - ay * bx * cy;
  }

  lemma Balance(p: Position, a: Position, b: Position, c: Position)
    ensures Weight(b, c, p) * (a.lat - p.lat) + Weight(c, a, p) * (b.lat - p.lat) + Weight(a, b, p) * (c.lat - p.lat) == 0.0
  {
    WeightFrom(a, b, p);
    WeightFrom(b, c, p);
    WeightFrom(c, a, p);
    CrossBalance(a.lon - p.lon, a.lat - p.lat, b.lon - p.lon, b.lat - p.lat, c.lon - p.lon, c.lat - p.lat);
  }

  lemma TriangleParity(p: Position, a: Position, b: Position, c: Position)
    ensures Parity(p, [a, b, c]) == ((Crosses(p, a, b) != Crosses(p, b, c)) != Crosses(p, c, a))
  {
    assert Close([a, b, c]) == [a] + [b] + [c, a];
    PathSplits(p, [a], b, [c, a]);
    assert [b] + [c, a] == [b] + [c] + [a];
    PathSplits(p, [b], c, [a]);
    assert [a] + [b] == [a, b] && [b] + [c] == [b, c] && [c] + [a] == [c, a];
    TwoPoint(p, a, b);
    TwoPoint(p, b, c);
    TwoPoint(p, c, a);
  }

  lemma SignOfProduct(x: real, y: real)
    ensures (x > 0.0 && y > 0.0) || (x < 0.0 && y < 0.0) ==> x * y > 0.0
    ensures (x > 0.0 && y < 0.0) || (x < 0.0 && y > 0.0) ==> x * y < 0.0
    ensures x == 0.0 || y == 0.0 ==> x * y == 0.0
  {
  }

  // With a weighted balance wa*ya + wb*yb + wc*yc == 0, if only ya has the opposite side
  // then equal signs of wb and wc force the same sign on wa.
  lemma LoneApex(wa: real, ya: real, wb: real, yb: real, wc: real, yc: real)
    requires wa * ya + wb * yb + wc * yc == 0.0
    requires wa != 0.0 && wb != 0.0 && wc != 0.0
    requires (ya > 0.0 && yb <= 0.0 && yc <= 0.0) || (ya <= 0.0 && yb > 0.0 && yc > 0.0)
    ensures wb > 0.0 && wc > 0.0 ==> wa > 0.0
    ensures wb < 0.0 && wc < 0.0 ==> wa < 0.0
  {
    SignOfProduct(wa, ya);
    SignOfProduct(wb, yb);
    SignOfProduct(wc, yc);
  }

  lemma LoneApexTriangle(p: Position, a: Position, b: Position, c: Position)
    requires OffEdgeLines(p, a, b, c)
    requires (a.lat > p.lat) != (b.lat > p.lat) && (b.lat > p.lat) == (c.lat > p.lat)
    ensures ((Crosses(p, a, b) != Crosses(p, b, c)) != Crosses(p, c, a)) <==> StrictlyInside(p, a, b, c)
  {
    CrossingSign(p, a, b);
    CrossingSign(p, c, a);
    Balance(p, a, b, c);
    LoneApex(Weight(b, c, p), a.lat - p.lat, Weight(c, a, p), b.lat - p.lat, Weight(a, b, p), c.lat - p.lat);
  }

  lemma OneSidedBalance(wa: real, ya: real, wb: real, yb: real, wc: real, yc: real)
    requires wa * ya + wb * yb + wc * yc == 0.0
    requires (wa > 0.0 && wb > 0.0 && wc > 0.0) || (wa < 0.0 && wb < 0.0 && wc < 0.0)
    requires (ya > 0.0 && yb > 0.0 && yc > 0.0) || (ya <= 0.0 && yb <= 0.0 && yc <= 0.0)
    ensures ya == 0.0 && yb == 0.0 && yc == 0.0
  {
    SignOfProduct(wa, ya);
    SignOfProduct(wb, yb);
    SignOfProduct(wc, yc);
  }

  lemma LevelEdgeHasNoWeight(p: Position, a: Position, b: Position)
    requires a.lat == p.lat && b.lat == p.lat
    ensures Weight(a, b, p) == 0.0
  {
  }

  lemma OneSidedTriangle(p: Position, a: Position, b: Position, c: Position)
    requires OffEdgeLines(p, a, b, c)
    requires (a.lat > p.lat) == (b.lat > p.lat) == (c.lat > p.lat)
    ensures !StrictlyInside(p, a, b, c)
  {
    if StrictlyInside(p, a, b, c) {
      Balance(p, a, b, c);
      OneSidedBalance(Weight(b, c, p), a.lat - p.lat, Weight(c, a, p), b.lat - p.lat, Weight(a, b, p), c.lat - p.lat);
      LevelEdgeHasNoWeight(p, a, b);
      assert false;
    }
  }

  // With a and b seen from p in the same direction: n = |a|^2 and m = a . b.
  lemma ParallelScales(ax: real, ay: real, bx: real, bY: real, n: real, m: real)
    requires ax * bY == ay * bx && n == ax * ax + ay * ay && m == ax * bx + ay * bY
    ensures ay * m == bY * n && ax * m == bx * n
  {
    assert ay * m == ax * (ay * bx) + ay * ay * bY;
    assert bY * n == ax * (ax * bY) + ay * ay * bY;
    assert ax * m == ax * ax * bx + ay * (ax * bY);
    assert bx * n == ax * ax * bx + ay * (ay * bx);
  }

  lemma ParallelWeights(ax: real, ay: real, bx: real, bY: real, cx: real, cy: real, n: real, m: real)
    requires ay * m == bY * n && ax * m == bx * n
    ensures n * Cross(bx, bY, cx, cy) == m * Cross(ax, ay, cx, cy)
  {
    assert n * Cross(bx, bY, cx, cy) == (bx * n) * cy - (bY * n) * cx;
    assert m * Cross(ax, ay, cx, cy) == (ax * m) * cy - (ay * m) * cx;
  }

  // Positive factors do not change signs.
  lemma SameSign(x: real, m: real, y: real, n: real)
    requires m > 0.0 && n > 0.0 && x * m == y * n
    ensures (x > 0.0 <==> y > 0.0) && (x < 0.0 <==> y < 0.0)
  {
    SignOfProduct(x, m);
    SignOfProduct(y, n);
  }

  /** Exactly off the segment: off its line, or before its start, or past its end. */
  ghost predicate OffEdge(p: Position, a: Position, b: Position) {
    Weight(a, b, p) != 0.0 || Along(p, a, b) < 0.0 || Along(p, b, a) < 0.0
  }

  lemma AlongFrom(ax: real, ay: real, bx: real, bY: real, m: real, n: real, dx: real, dy: real)
    requires n == ax * ax + ay * ay && m == ax * bx + ay * bY && dx == bx - ax && dy == bY - ay
    ensures Dot(-ax, -ay, dx, dy) == n - m
  {
    assert (-ax) * dx == ax * ax - ax * bx;
    assert (-ay) * dy == ay * ay - ay * bY;
  }

  // On the line of an edge but off the edge, both ends are seen in the same direction.
  lemma SameDirection(p: Position, a: Position, b: Position)
    requires Weight(a, b, p) == 0.0 && OffEdge(p, a, b)
    ensures var ax, ay, bx, bY := a.lon - p.lon, a.lat - p.lat, b.lon - p.lon, b.lat - p.lat;
            ax * bY == ay * bx && ax * bx + ay * bY > 0.0 && ax * ax + ay * ay > 0.0
  {
    var ax, ay, bx, bY := a.lon - p.lon, a.lat - p.lat, b.lon - p.lon, b.lat - p.lat;
    var n, k, m := ax * ax + ay * ay, bx * bx + bY * bY, ax * bx + ay * bY;
    WeightFrom(a, b, p);
    AlongFrom(ax, ay, bx, bY, m, n, b.lon - a.lon, b.lat - a.lat);
    AlongFrom(bx, bY, ax, ay, m, k, a.lon - b.lon, a.lat - b.lat);
    assert p.lon - a.lon == -ax && p.lat - a.lat == -ay && p.lon - b.lon == -bx && p.lat - b.lat == -bY;
    SquaresArePositive(ax, ay, bx, bY, m);
    SquaresArePositive(bx, bY, ax, ay, m);
    assert m > 0.0;
  }

  lemma SquaresArePositive(ax: real, ay: real, bx: real, bY: real, m: real)
    requires m == ax * bx + ay * bY
    ensures ax * ax + ay * ay >= 0.0 && (m != 0.0 ==> ax * ax + ay * ay > 0.0)
  {
    SignOfProduct(ax, ax);
    SignOfProduct(ay, ay);
    SignOfProduct(ax, bx);
    SignOfProduct(ay, bY);
  }

  // A point on the line of an edge but off the edge is toggled twice or not at all.
  lemma BeyondAnEdge(p: Position, a: Position, b: Position, c: Position)
    requires Weight(a, b, p) == 0.0 && OffEdge(p, a, b)
    ensures !Crosses(p, a, b) && Crosses(p, b, c) == Crosses(p, c, a)
  {
    var ax, ay, bx, bY, cx, cy := a.lon - p.lon, a.lat - p.lat, b.lon - p.lon, b.lat - p.lat, c.lon - p.lon, c.lat - p.lat;
    var n, m := ax * ax + ay * ay, ax * bx + ay * bY;
    SameDirection(p, a, b);
    ParallelScales(ax, ay, bx, bY, n, m);
    SameSign(ay, m, bY, n);
    ParallelWeights(ax, ay, bx, bY, cx, cy, n, m);
    WeightFrom(b, c, p);
    WeightFrom(a, c, p);
    WeightReversed(a, c, p);
    SameSign(Weight(b, c, p), n, Weight(a, c, p), m);
    if Straddles(p, b, c) {
      CrossingSign(p, b, c);
      CrossingSign(p, c, a);
    }
  }

  /** For one triangle and a point that is on none of its edges, the toggle answers strict containment. */
  lemma TriangleExact(p: Position, a: Position, b: Position, c: Position)
    requires OffEdge(p, a, b) && OffEdge(p, b, c) && OffEdge(p, c, a)
    ensures Parity(p, [a, b, c]) <==> StrictlyInside(p, a, b, c)
  {
    TriangleParity(p, a, b, c);
    if Weight(a, b, p) == 0.0 {
      BeyondAnEdge(p, a, b, c);
    } else if Weight(b, c, p) == 0.0 {
      BeyondAnEdge(p, b, c, a);
    } else if Weight(c, a, p) == 0.0 {
      BeyondAnEdge(p, c, a, b);
    } else if (a.lat > p.lat) == (b.lat > p.lat) == (c.lat > p.lat) {
      OneSidedTriangle(p, a, b, c);
    } else if (b.lat > p.lat) == (c.lat > p.lat) {
      LoneApexTriangle(p, a, b, c);
    } else if (c.lat > p.lat) == (a.lat > p.lat) {
      LoneApexTriangle(p, b, c, a);
    } else {
      LoneApexTriangle(p, c, a, b);
    }
  }

  /** On a triangle, containment is exactly: on the boundary, or on the same side of all three edges. */
  lemma TriangleContains(p: Position, a: Position, b: Position, c: Position)
    ensures Inside(p, [a, b, c]) <==> OnBoundary(p, [a, b, c]) || StrictlyInside(p, a, b, c)
  {
    var vs := [a, b, c];
    if !OnBoundary(p, vs) {
      assert !OnSegment(p, vs[0], Next(vs, 0)) && !OnSegment(p, vs[1], Next(vs, 1)) && !OnSegment(p, vs[2], Next(vs, 2));
      ToleranceIsPositive(a, b);
      ToleranceIsPositive(b, c);
      ToleranceIsPositive(c, a);
      TriangleExact(p, a, b, c);
    }
  }

  lemma ToleranceIsPositive(a: Position, b: Position)
    ensures EdgeTolerance(a, b) > 0.0
  {
  }

  /** The point is on no edge of any triangle of the fan. */
  ghost predicate OffFan(p: Position, u: Position, rest: seq<Position>) {
    |rest| < 2 || (
      && OffEdge(p, u, rest[0]) && OffEdge(p, rest[0], rest[1]) && OffEdge(p, rest[1], u)
      && OffFan(p, u, rest[1..]))
  }

  /** How many triangles of the fan strictly contain the point. */
  ghost function Covering(p: Position, u: Position, rest: seq<Position>): nat {
    if |rest| < 2 then 0
    else (if StrictlyInside(p, u, rest[0], rest[1]) then 1 else 0) + Covering(p, u, rest[1..])
  }

  /**
    The meaning of the whole loop: for a point on no edge of the fan, the toggle answers whether an
    odd number of fan triangles strictly contain it.
   */
  lemma {:induction false} EvenOddCountsTriangles(p: Position, u: Position, rest: seq<Position>)
    requires rest != []
    requires OffFan(p, u, rest)
    ensures Parity(p, [u] + rest) <==> Covering(p, u, rest) % 2 == 1
    decreases |rest|
  {
    EvenOddIsFan(p, u, rest);
    if |rest| >= 2 {
      TriangleExact(p, u, rest[0], rest[1]);
      var tail := rest[1..];
      EvenOddCountsTriangles(p, u, tail);
      EvenOddIsFan(p, u, tail);
    }
  }

  // ---------------------------------------------------------------------------
  // Containment does not depend on where the vertex list starts or its direction
  // ---------------------------------------------------------------------------

  function Rotate(vs: seq<Position>): seq<Position>
    requires vs != []
  {
    vs[1..] + [vs[0]]
  }

  // Some edge of the closed polygon satisfies a test.
  ghost predicate SomeEdge(hit: (Position, Position) -> bool, vs: seq<Position>) {
    exists i :: 0 <= i < |vs| && hit(vs[i], Next(vs, i))
  }

  lemma RotatedEdges(hit: (Position, Position) -> bool, vs: seq<Position>)
    requires |vs| >= 3
    ensures SomeEdge(hit, Rotate(vs)) == SomeEdge(hit, vs)
  {
    var r, n := Rotate(vs), |vs|;
    if SomeEdge(hit, r) {
      var i :| 0 <= i < n && hit(r[i], Next(r, i));
      var j := if i == n - 1 then 0 else i + 1;
      assert r[i] == vs[j] && Next(r, i) == Next(vs, j);
    }
    if SomeEdge(hit, vs) {
      var i :| 0 <= i < n && hit(vs[i], Next(vs, i));
      var j := if i == 0 then n - 1 else i - 1;
      assert r[j] == vs[i] && Next(r, j) == Next(vs, i);
    }
  }

  lemma ReversedAt(vs: seq<Position>, i: nat) returns (j: nat)
    requires |vs| >= 3 && i < |vs|
    ensures j < |Reversed(vs)| && Reversed(vs)[j] == Next(vs, i) && Next(Reversed(vs), j) == vs[i]
  {
    j := if i == |vs| - 1 then |vs| - 1 else |vs| - 2 - i;
  }

  lemma ReversedEdges(hit: (Position, Position) -> bool, vs: seq<Position>)
    requires |vs| >= 3 && forall a, b :: hit(a, b) == hit(b, a)
    requires SomeEdge(hit, vs)
    ensures SomeEdge(hit, Reversed(vs))
  {
    var i :| 0 <= i < |vs| && hit(vs[i], Next(vs, i));
    var j := ReversedAt(vs, i);
    hide Next, Reversed;
    assert hit(Next(vs, i), vs[i]);
  }

  lemma BoundaryIsSomeEdge(p: Position, vs: seq<Position>)
    ensures OnBoundary(p, vs) == SomeEdge((a, b) => OnSegment(p, a, b), vs)
  {
    var hit := (a, b) => OnSegment(p, a, b);
    if OnBoundary(p, vs) {
      var i :| 0 <= i < |vs| && OnSegment(p, vs[i], Next(vs, i));
      assert hit(vs[i], Next(vs, i));
    }
  }

  lemma RotatedParity(p: Position, vs: seq<Position>)
    requires |vs| >= 2
    ensures Parity(p, Rotate(vs)) == Parity(p, vs)
  {
    var a, b, rest := vs[0], vs[1], vs[2..];
    assert Close(vs) == [a] + [b] + (rest + [a]);
    PathSplits(p, [a], b, rest + [a]);
    assert Close(Rotate(vs)) == ([b] + rest) + [a] + [b];
    PathSplits(p, [b] + rest, a, [b]);
    assert [b] + (rest + [a]) == [b] + rest + [a];
  }

  lemma RotationInvariant(p: Position, vs: seq<Position>)
    requires vs != []
    ensures Inside(p, Rotate(vs)) == Inside(p, vs)
  {
    if |vs| >= 3 {
      BoundaryIsSomeEdge(p, vs);
      BoundaryIsSomeEdge(p, Rotate(vs));
      RotatedEdges((a, b) => OnSegment(p, a, b), vs);
      RotatedParity(p, vs);
    }
  }

  lemma ReversedBoundary(p: Position, vs: seq<Position>)
    requires |vs| >= 3 && OnBoundary(p, vs)
    ensures OnBoundary(p, Reversed(vs))
  {
    var hit := (a, b) => OnSegment(p, a, b);
    BoundaryIsSomeEdge(p, vs);
    BoundaryIsSomeEdge(p, Reversed(vs));
    forall a, b ensures hit(a, b) == hit(b, a) {
      OnSegmentIsSymmetric(p, a, b);
    }
    ReversedEdges(hit, vs);
  }

  lemma ReversedTwice(vs: seq<Position>)
    ensures Reversed(Reversed(vs)) == vs
  {
  }

  lemma ReversedParity(p: Position, vs: seq<Position>)
    requires vs != []
    ensures Parity(p, Reversed(vs)) == Parity(p, vs)
    decreases |vs|
  {
    // Reversing the closed walk gives the closed walk of the reversed list, rotated once.
    var a, rest := vs[0], vs[1..];
    PathReversed(p, Close(vs));
    var walk := Reversed(Close(vs));
    assert walk == [a] + Reversed(rest) + [a];
    assert Reversed(vs) == Reversed(rest) + [a];
    if rest != [] {
      var turned := [a] + Reversed(rest);
      assert Close(turned) == walk;
      assert Rotate(turned) == Reversed(vs);
      RotatedParity(p, turned);
    }
  }

  lemma ReversalInvariant(p: Position, vs: seq<Position>)
    ensures Inside(p, Reversed(vs)) == Inside(p, vs)
  {
    if |vs| >= 3 {
      ReversedParity(p, vs);
      if OnBoundary(p, vs) {
        ReversedBoundary(p, vs);
      }
      if OnBoundary(p, Reversed(vs)) {
        ReversedBoundary(p, Reversed(vs));
        ReversedTwice(vs);
      }
    }
  }

  // ---------------------------------------------------------------------------
  // The boundary is inside, and everything outside the bounding box is not
  // ---------------------------------------------------------------------------

  function Between(a: Position, b: Position, t: real): Position {
    Position(a.lat + t * (b.lat - a.lat), a.lon + t * (b.lon - a.lon))
  }

  lemma MultipleOfDirection(dx: real, dy: real, t: real)
    ensures Cross(dx, dy, t * dx, t * dy) == 0.0
    ensures Dot(t * dx, t * dy, dx, dy) == t * Dot(dx, dy, dx, dy)
  {
  }

  lemma BetweenOnLine(a: Position, b: Position, t: real)
    ensures Weight(a, b, Between(a, b, t)) == 0.0
    ensures Along(Between(a, b, t), a, b) == t * SquaredLength(a, b)
  {
    var p := Between(a, b, t);
    assert p.lat - a.lat == t * (b.lat - a.lat) && p.lon - a.lon == t * (b.lon - a.lon);
    MultipleOfDirection(b.lon - a.lon, b.lat - a.lat, t);
  }

  lemma ProductOfEqualSigns(x: real, y: real, u: real)
    requires u == x * y
    ensures (x > 0.0 && y > 0.0) || (x < 0.0 && y < 0.0) ==> u > 0.0
    ensures x == 0.0 || y == 0.0 ==> u == 0.0
  {
  }

  lemma DotOfSame(ux: real, uy: real, dx: real, dy: real)
    requires ux == dx && uy == dy
    ensures Dot(ux, uy, dx, dy) >= 0.0
    ensures ux != 0.0 || uy != 0.0 ==> Dot(ux, uy, dx, dy) > 0.0
  {
    var u, v := ux * dx, uy * dy;
    ProductOfEqualSigns(ux, dx, u);
    ProductOfEqualSigns(uy, dy, v);
    assert Dot(ux, uy, dx, dy) == u + v;
  }

  lemma ConvexCombinationOnSegment(a: Position, b: Position, t: real)
    requires 0.0 <= t <= 1.0
    ensures OnSegment(Between(a, b, t), a, b)
  {
    BetweenOnLine(a, b, t);
    AlongBothWays(Between(a, b, t), a, b);
    DotOfSame(b.lon - a.lon, b.lat - a.lat, b.lon - a.lon, b.lat - a.lat);
    ProductMonotone(t, SquaredLength(a, b), Along(Between(a, b, t), a, b));
  }

  /** Every point of every edge, end points included, is contained. */
  lemma BoundaryIsInside(vs: seq<Position>, i: nat, t: real)
    requires |vs| >= 3 && i < |vs| && 0.0 <= t <= 1.0
    ensures Inside(Between(vs[i], Next(vs, i), t), vs)
  {
    ConvexCombinationOnSegment(vs[i], Next(vs, i), t);
  }

  lemma SquareBound(x: real, bound: real)
    requires Abs(x) <= bound
    ensures x * x <= bound * bound
  {
    SignOfProduct(bound - x, bound + x);
    assert (bound - x) * (bound + x) == bound * bound - x * x;
  }

  // Lagrange's identity, with t * d the projection of u on d.
  lemma Projection(ux: real, uy: real, dx: real, dy: real, t: real)
    requires t * Dot(dx, dy, dx, dy) == Dot(ux, uy, dx, dy)
    ensures Dot(ux - t * dx, uy - t * dy, ux - t * dx, uy - t * dy) * Dot(dx, dy, dx, dy)
         == Cross(dx, dy, ux, uy) * Cross(dx, dy, ux, uy)
  {
    var s, dot, cross := dx * dx + dy * dy, ux * dx + uy * dy, dx * uy - dy * ux;
    var w := (ux - t * dx) * (ux - t * dx) + (uy - t * dy) * (uy - t * dy);
    assert w == (ux * ux + uy * uy) - 2.0 * (t * dot) + t * (t * s);
    assert w == (ux * ux + uy * uy) - t * dot;
    assert w * s == (ux * ux + uy * uy) * s - (t * s) * dot;
    assert (ux * ux + uy * uy) * s == dot * dot + cross * cross;
  }

  // The foot of u on a segment of direction d, when u lies in the slab of the segment.
  lemma Foot(ux: real, uy: real, dx: real, dy: real, bound: real) returns (t: real)
    requires Dot(dx, dy, dx, dy) > 0.0
    requires Abs(Cross(dx, dy, ux, uy)) <= bound
    requires 0.0 <= Dot(ux, uy, dx, dy) <= Dot(dx, dy, dx, dy)
    ensures 0.0 <= t <= 1.0
    ensures Dot(ux - t * dx, uy - t * dy, ux - t * dx, uy - t * dy) * Dot(dx, dy, dx, dy) <= bound * bound
  {
    t := Quotient(Dot(ux, uy, dx, dy), Dot(dx, dy, dx, dy));
    Projection(ux, uy, dx, dy, t);
    SquareBound(Cross(dx, dy, ux, uy), bound);
  }

  lemma Quotient(n: real, h: real) returns (t: real)
    requires 0.0 <= n <= h && h > 0.0
    ensures 0.0 <= t <= 1.0 && t * h == n
  {
    t := n / h;
    DivideBack(n, h);
    UnitQuotient(n, h);
  }

  lemma DotSplits(ux: real, uy: real, dx: real, dy: real)
    ensures Dot(ux - dx, uy - dy, -dx, -dy) == Dot(dx, dy, dx, dy) - Dot(ux, uy, dx, dy)
  {
    assert (ux - dx) * (-dx) == dx * dx - ux * dx;
    assert (uy - dy) * (-dy) == dy * dy - uy * dy;
  }

  // (p - b) . (a - b) is the rest of the edge's squared length.
  lemma AlongBothWays(p: Position, a: Position, b: Position)
    ensures Along(p, b, a) == SquaredLength(a, b) - Along(p, a, b)
  {
    var dx, dy, ux, uy := b.lon - a.lon, b.lat - a.lat, p.lon - a.lon, p.lat - a.lat;
    assert p.lon - b.lon == ux - dx && p.lat - b.lat == uy - dy && a.lon - b.lon == -dx && a.lat - b.lat == -dy;
    DotSplits(ux, uy, dx, dy);
  }

  /**
    Nothing far from an edge is taken for boundary: a point accepted on an edge of length L is
    within CROSS_TOLERANCE * max(L*L, 1) / L degrees of some point of the edge.
   */
  lemma BoundaryIsNear(p: Position, a: Position, b: Position, tolerance: real) returns (t: real)
    requires a != b && OnSegment(p, a, b) && tolerance == EdgeTolerance(a, b)
    ensures 0.0 <= t <= 1.0
    ensures SquaredLength(Between(a, b, t), p) * SquaredLength(a, b) <= tolerance * tolerance
  {
    InSlab(p, a, b, tolerance);
    hide Cross, Along, Weight, OnSegment, EdgeTolerance, Abs;
    t := Foot(p.lon - a.lon, p.lat - a.lat, b.lon - a.lon, b.lat - a.lat, tolerance);
    BetweenOffset(p, a, b, t);
    hide Between;
  }

  lemma InSlab(p: Position, a: Position, b: Position, tolerance: real)
    requires a != b && OnSegment(p, a, b) && tolerance == EdgeTolerance(a, b)
    ensures var ux, uy, dx, dy := p.lon - a.lon, p.lat - a.lat, b.lon - a.lon, b.lat - a.lat;
            && Abs(Cross(dx, dy, ux, uy)) <= tolerance && 0.0 <= Dot(ux, uy, dx, dy) <= Dot(dx, dy, dx, dy)
            && Dot(dx, dy, dx, dy) > 0.0 && SquaredLength(a, b) == Dot(dx, dy, dx, dy)
  {
    AlongBothWays(p, a, b);
    DotOfSame(b.lon - a.lon, b.lat - a.lat, b.lon - a.lon, b.lat - a.lat);
    hide Dot, Cross, EdgeTolerance, Abs;
  }

  lemma BetweenOffset(p: Position, a: Position, b: Position, t: real)
    ensures p.lat - Between(a, b, t).lat == (p.lat - a.lat) - t * (b.lat - a.lat)
    ensures p.lon - Between(a, b, t).lon == (p.lon - a.lon) - t * (b.lon - a.lon)
  {
  }

  lemma ProductMonotone(t: real, d: real, q: real)
    requires 0.0 <= t <= 1.0 && q == t * d
    ensures d >= 0.0 ==> 0.0 <= q <= d
    ensures d <= 0.0 ==> d <= q <= 0.0
  {
  }

  // Two products with one value, of factors of which h and y have the same sign.
  lemma SignCarries(x: real, h: real, y: real, d: real, m: real)
    requires m == x * h && m == y * d
    requires (h > 0.0 && y >= 0.0) || (h < 0.0 && y <= 0.0)
    ensures d >= 0.0 ==> x >= 0.0
    ensures d <= 0.0 ==> x <= 0.0
  {
    SignOfProduct(x, h);
    SignOfProduct(y, d);
  }

  // q is n / h of d.
  lemma PartOf(n: real, h: real, d: real, q: real)
    requires (h > 0.0 && 0.0 <= n <= h) || (h < 0.0 && h <= n <= 0.0)
    requires q * h == n * d
    ensures d >= 0.0 ==> 0.0 <= q <= d
    ensures d <= 0.0 ==> d <= q <= 0.0
  {
    var rest, left := d - q, h - n;
    assert rest * h == d * h - q * h;
    assert left * d == h * d - n * d;
    SignCarries(q, h, n, d, n * d);
    SignCarries(rest, h, left, d, left * d);
  }

  lemma MeetIsBetween(p: Position, a: Position, b: Position)
    requires Straddles(p, a, b)
    ensures a.lon <= RayMeets(p, a, b) <= b.lon || b.lon <= RayMeets(p, a, b) <= a.lon
  {
    var h, n, d := b.lat - a.lat, p.lat - a.lat, b.lon - a.lon;
    DivideBack(n * d, h);
    PartOf(n, h, d, n * d / h);
  }

  lemma UnitQuotient(n: real, h: real)
    requires (0.0 <= n <= h && h > 0.0) || (h <= n <= 0.0 && h < 0.0)
    ensures 0.0 <= n / h <= 1.0
  {
    var t := n / h;
    DivideBack(n, h);
    ScaledCompare(0.0, t, h);
    ScaledCompare(t, 1.0, h);
    assert (0.0 - t) * h == -(t * h) && (t - 1.0) * h == t * h - h;
  }

  /** Above, below or to the right of every vertex no edge is crossed. */
  lemma {:induction false} NothingCrossed(p: Position, path: seq<Position>)
    requires
      || (forall v :: v in path ==> v.lat <= p.lat)
      || (forall v :: v in path ==> v.lat > p.lat)
      || (forall v :: v in path ==> v.lon <= p.lon)
    ensures !PathParity(p, path)
    decreases |path|
  {
    if |path| >= 2 {
      var a, b := path[|path| - 2], path[|path| - 1];
      assert a in path && b in path;
      if Straddles(p, a, b) {
        MeetIsBetween(p, a, b);
      }
      NothingCrossed(p, path[..|path| - 1]);
    }
  }

  /** Left of every vertex every straddling edge is crossed: only the end points' sides matter. */
  lemma {:induction false} OnlyEndsMatter(p: Position, path: seq<Position>)
    requires path != [] && forall v :: v in path ==> v.lon > p.lon
    ensures PathParity(p, path) == Straddles(p, path[0], path[|path| - 1])
    decreases |path|
  {
    if |path| >= 2 {
      var a, b := path[|path| - 2], path[|path| - 1];
      assert a in path && b in path;
      if Straddles(p, a, b) {
        MeetIsBetween(p, a, b);
      }
      OnlyEndsMatter(p, path[..|path| - 1]);
    }
  }

  /** Outside the bounding box the crossing loop always answers false. */
  lemma OutsideBoundingBox(p: Position, vs: seq<Position>)
    requires vs != []
    requires
      || (forall v :: v in vs ==> v.lat <= p.lat)
      || (forall v :: v in vs ==> v.lat > p.lat)
      || (forall v :: v in vs ==> v.lon <= p.lon)
      || (forall v :: v in vs ==> v.lon > p.lon)
    ensures !Parity(p, vs)
  {
    var walk := Close(vs);
    assert forall v :: v in walk ==> v in vs;
    if forall v :: v in vs ==> v.lon > p.lon {
      OnlyEndsMatter(p, walk);
    } else {
      NothingCrossed(p, walk);
    }
  }

  // ---------------------------------------------------------------------------
  // How thick the boundary is
  // ---------------------------------------------------------------------------

  /** No edge is shorter than a millionth of a degree, or longer than a million degrees. */
  predicate OrdinaryEdges(vs: seq<Position>) {
    forall i :: 0 <= i < |vs| ==> 0.000000000001 <= Squares(Next(vs, i), vs[i]) <= 1000000000000.0
  }

  /** The squared distance in degrees. */
  function Squares(p: Position, q: Position): real {
    (p.lat - q.lat) * (p.lat - q.lat) + (p.lon - q.lon) * (p.lon - q.lon)
  }

  /** The point is within a millionth of a degree of a point of edge i. */
  ghost predicate NearEdge(p: Position, vs: seq<Position>, i: nat, t: real)
    requires i < |vs|
  {
    0.0 <= t <= 1.0 && Squares(p, Between(vs[i], Next(vs, i), t)) <= 0.000000000001
  }

  lemma LessByProduct(d: real, e: real, s: real, ds: real, es: real)
    requires s > 0.0 && ds == d * s && es == e * s && ds <= es
    ensures d <= e
  {
    var x := d - e;
    assert x * s == ds - es;
    SignOfProduct(x, s);
  }

  // From distance * length <= tolerance to a bound on the distance, all squared.
  lemma Thin(d: real, s: real, t: real, ds: real, tt: real)
    requires 0.000000000001 <= s <= 1000000000000.0 && ds == d * s && tt == t * t
    requires t == 0.000000000001 * (if s >= 1.0 then s else 1.0) && ds <= tt
    ensures d <= 0.000000000001
  {
    if s >= 1.0 {
      var e := 0.000000000000000000000001 * s;
      TimesTwice(s, t, tt, e);
      LessByProduct(d, e, s, ds, tt);
    } else {
      LessByProduct(d, 0.000000000001, s, ds, 0.000000000001 * s);
    }
  }

  lemma TimesTwice(s: real, t: real, tt: real, e: real)
    requires t == 0.000000000001 * s && tt == t * t && e == 0.000000000000000000000001 * s
    ensures tt == e * s
  {
    assert tt == (0.000000000001 * s) * (0.000000000001 * s);
  }

  lemma SquaresAreLengths(a: Position, b: Position)
    ensures SquaredLength(a, b) == Squares(b, a) == Squares(a, b)
  {
    var x, y := b.lat - a.lat, b.lon - a.lon;
    assert a.lat - b.lat == -x && a.lon - b.lon == -y;
    assert (-x) * (-x) == x * x && (-y) * (-y) == y * y;
  }

  lemma SegmentIsThin(p: Position, a: Position, b: Position) returns (t: real)
    requires OnSegment(p, a, b) && 0.000000000001 <= Squares(b, a) <= 1000000000000.0
    ensures 0.0 <= t <= 1.0 && Squares(p, Between(a, b, t)) <= 0.000000000001
  {
    hide *;
    EdgeFacts(a, b);
    var tolerance := EdgeTolerance(a, b);
    t := BoundaryIsNear(p, a, b, tolerance);
    var q := Between(a, b, t);
    SquaresAreLengths(a, b);
    SquaresAreLengths(q, p);
    Thin(Squares(p, q), Squares(b, a), tolerance, Squares(p, q) * Squares(b, a), tolerance * tolerance);
  }

  lemma EdgeFacts(a: Position, b: Position)
    requires Squares(b, a) > 0.0
    ensures a != b && EdgeTolerance(a, b) == 0.000000000001 * (if Squares(b, a) >= 1.0 then Squares(b, a) else 1.0)
  {
    SquaresAreLengths(a, b);
    assert a == b ==> b.lat - a.lat == 0.0 && b.lon - a.lon == 0.0 && Squares(b, a) == 0.0;
    hide SquaredLength, Squares;
  }

  lemma SquareNonNegative(x: real)
    ensures x * x >= 0.0
  {
    SignOfProduct(x, x);
  }

  /**
    The boundary of a polygon with ordinary edges is at most a millionth of a degree thick: whatever is
    inside has an odd crossing parity or is that close to a point of some edge.
   */
  lemma InsideIsNear(p: Position, vs: seq<Position>)
    requires Inside(p, vs) && OrdinaryEdges(vs)
    ensures PathParity(p, Close(vs)) || exists i: nat, t: real :: i < |vs| && NearEdge(p, vs, i, t)
  {
    if !PathParity(p, Close(vs)) {
      var i :| 0 <= i < |vs| && OnSegment(p, vs[i], Next(vs, i));
      var t := SegmentIsThin(p, vs[i], Next(vs, i));
      assert NearEdge(p, vs, i, t);
    }
  }

  // A point between two values stays below a bound of both.
  lemma BetweenBelow(x: real, y: real, t: real, bound: real)
    requires 0.0 <= t <= 1.0 && x <= bound && y <= bound
    ensures x + t * (y - x) <= bound
  {
    ProductMonotone(t, y - x, t * (y - x));
  }

  lemma BetweenAbove(x: real, y: real, t: real, bound: real)
    requires 0.0 <= t <= 1.0 && x >= bound && y >= bound
    ensures x + t * (y - x) >= bound
  {
    ProductMonotone(t, y - x, t * (y - x));
  }

  lemma FarInOneCoordinate(p: Position, q: Position)
    requires p.lat - q.lat > 0.000001 || q.lat - p.lat > 0.000001 || p.lon - q.lon > 0.000001 || q.lon - p.lon > 0.000001
    ensures Squares(p, q) > 0.000000000001
  {
    var x, y := p.lat - q.lat, p.lon - q.lon;
    SquareNonNegative(x);
    SquareNonNegative(y);
    assert Squares(p, q) == x * x + y * y;
    if x > 0.000001 || x < -0.000001 {
      LargeSquare(x);
    } else {
      LargeSquare(y);
    }
  }

  lemma LargeSquare(x: real)
    requires x > 0.000001 || x < -0.000001
    ensures x * x > 0.000000000001
  {
    SignOfProduct(x - 0.000001, x + 0.000001);
    assert (x - 0.000001) * (x + 0.000001) == x * x - 0.000000000001;
  }

  /** More than a millionth of a degree off the bounding box, on any side. */
  predicate FarOutside(p: Position, vs: seq<Position>) {
    || (forall v :: v in vs ==> v.lat < p.lat - 0.000001)
    || (forall v :: v in vs ==> v.lat > p.lat + 0.000001)
    || (forall v :: v in vs ==> v.lon < p.lon - 0.000001)
    || (forall v :: v in vs ==> v.lon > p.lon + 0.000001)
  }

  lemma FarFromEdge(p: Position, vs: seq<Position>, i: nat, t: real)
    requires FarOutside(p, vs) && i < |vs|
    ensures !NearEdge(p, vs, i, t)
  {
    var a, b := vs[i], Next(vs, i);
    assert a in vs && b in vs;
    if 0.0 <= t <= 1.0 {
      var q := Between(a, b, t);
      var south, north := if a.lat < b.lat then a.lat else b.lat, if a.lat < b.lat then b.lat else a.lat;
      var west, east := if a.lon < b.lon then a.lon else b.lon, if a.lon < b.lon then b.lon else a.lon;
      BetweenBelow(a.lat, b.lat, t, north);
      BetweenAbove(a.lat, b.lat, t, south);
      BetweenBelow(a.lon, b.lon, t, east);
      BetweenAbove(a.lon, b.lon, t, west);
      assert south <= q.lat <= north && west <= q.lon <= east;
      FarInOneCoordinate(p, q);
    }
  }

  /** So a zone contains no point more than a millionth of a degree outside its bounding box. */
  lemma FarOutsideIsOutside(p: Position, vs: seq<Position>)
    requires vs != [] && FarOutside(p, vs) && OrdinaryEdges(vs)
    ensures !Inside(p, vs)
  {
    OutsideBoundingBox(p, vs);
    forall i: nat, t: real | i < |vs| ensures !NearEdge(p, vs, i, t) {
      FarFromEdge(p, vs, i, t);
    }
    if Inside(p, vs) {
      InsideIsNear(p, vs);
    }
  }

  lemma OnParallel(length: real, x: real, h: real)
    ensures Cross(length, 0.0, x, h) == h * length && Dot(x, h, length, 0.0) == x * length
    ensures Dot(x - length, h, -length, 0.0) == (length - x) * length && Dot(length, 0.0, length, 0.0) == length * length
  {
    assert 0.0 * x == 0.0 && h * 0.0 == 0.0;
    assert (x - length) * (-length) == (length - x) * length;
  }

  /** Exactly how far off an edge the boundary reaches, for an edge of any length along a parallel. */
  lemma ToleranceExactly(length: real, x: real, h: real)
    requires length > 0.0 && 0.0 <= x <= length
    ensures OnSegment(Position(h, x), Position(0.0, 0.0), Position(0.0, length)) <==>
              Abs(h * length) <= 0.000000000001 * (if length * length >= 1.0 then length * length else 1.0)
  {
    var a, b, p := Position(0.0, 0.0), Position(0.0, length), Position(h, x);
    OnParallel(length, x, h);
    SignOfProduct(x, length);
    SignOfProduct(length - x, length);
    assert Along(p, a, b) == x * length && Along(p, b, a) == (length - x) * length;
    assert Weight(a, b, p) == h * length;
    assert SquaredLength(a, b) == length * length;
    hide Along, Weight, SquaredLength, Cross, Dot;
    assert x * length >= 0.0 && (length - x) * length >= 0.0;
    assert EdgeTolerance(a, b) == 0.000000000001 * (if length * length >= 1.0 then length * length else 1.0);
  }
}
