/** Reducing a detected board outline to the four corners closest to right
    angles (src/utils/math_stuff.py). The angle at a vertex is computed by
    floating-point code outside this model, so it is a parameter here. */
module MathStuff {
  import opened Wrappers

  datatype Point = Point(x: real, y: real)

  /** A vertex of the outline with the angle, in degrees, measured at it. */
  datatype Vertex = Vertex(point: Point, angle: real)

  /** `abs(angle - 90)`. */
  function Deviation(angle: real): (d: real)
    ensures d >= 0.0
    ensures d == 0.0 <==> angle == 90.0
    ensures d == angle - 90.0 || d == 90.0 - angle
  {
    if angle >= 90.0 then angle - 90.0 else 90.0 - angle
  }

  /** `list(polygon.exterior.coords)[:-1]`: the ring without its closing
      point (an empty ring stays empty). */
  function OpenRing(coords: seq<Point>): (r: seq<Point>)
    ensures |coords| > 0 ==> coords == r + [coords[|coords| - 1]]
    ensures |coords| == 0 ==> r == []
  {
    if |coords| == 0 then [] else coords[..|coords| - 1]
  }

  /** `i - 1` as a Python index into n points: -1 names the last one. It is
      the index before i on the ring, the one whose successor is i. */
  function Prev(i: int, n: int): (j: int)
    requires 0 <= i < n
    ensures 0 <= j < n
    ensures j == (i - 1) % n
    ensures Next(j, n) == i
    ensures i > 0 ==> j == i - 1
    ensures i == 0 ==> j == n - 1
  {
    if i == 0 then n - 1 else i - 1
  }

  /** `(i + 1) % n`: the next point, wrapping from the last to the first. */
  function Next(i: int, n: int): (j: int)
    requires 0 <= i < n
    ensures 0 <= j < n
    ensures i < n - 1 ==> j == i + 1
    ensures i == n - 1 ==> j == 0
  {
    (i + 1) % n
  }

  /** The first loop: each point paired with the angle between its cyclic
      predecessor, itself and its cyclic successor. */
  function VertexAngles(points: seq<Point>, angle: (Point, Point, Point) -> real): (vs: seq<Vertex>)
    ensures |vs| == |points|
    ensures forall i :: 0 <= i < |points| ==> vs[i].point == points[i]
  {
    seq(|points|, i requires 0 <= i < |points| =>
      Vertex(points[i], angle(points[Prev(i, |points|)], points[i], points[Next(i, |points|)])))
  }

  /** One entry per vertex, excluding the ring's closing point; the angle at
      vertex i is taken between vertices i - 1 and i + 1, with the first and
      the last vertex neighbours of each other. */
  lemma VertexNeighbours(coords: seq<Point>, angle: (Point, Point, Point) -> real, i: int)
    requires 0 <= i < |OpenRing(coords)|
    ensures var points := OpenRing(coords); var n := |points|;
      && |VertexAngles(points, angle)| == n == |coords| - 1
      && (forall j :: 0 <= j < n ==> points[j] == coords[j])
      && VertexAngles(points, angle)[i] ==
           Vertex(points[i], angle(points[if i == 0 then n - 1 else i - 1], points[i],
                                   points[if i == n - 1 then 0 else i + 1]))
  {
    var points := OpenRing(coords);
    var n := |points|;
    assert VertexAngles(points, angle)[i] ==
           Vertex(points[i], angle(points[Prev(i, n)], points[i], points[Next(i, n)]));
  }

  /** The scan inside the while loop: the first vertex whose deviation from
      90 degrees is largest (later vertices replace it only when strictly
      worse). */
  function WorstIndex(vs: seq<Vertex>): (w: nat)
    requires |vs| > 0
    ensures w < |vs|
    ensures forall i :: 0 <= i < |vs| ==> Deviation(vs[i].angle) <= Deviation(vs[w].angle)
    ensures forall i :: 0 <= i < w ==> Deviation(vs[i].angle) < Deviation(vs[w].angle)
  {
    if |vs| == 1 then 0
    else
      var w := WorstIndex(vs[..|vs| - 1]);
      if Deviation(vs[|vs| - 1].angle) > Deviation(vs[w].angle) then |vs| - 1 else w
  }

  /** One more step of the scan. */
  lemma WorstIndexStep(vs: seq<Vertex>, i: nat)
    requires 0 < i < |vs|
    ensures WorstIndex(vs[..i + 1]) ==
            if Deviation(vs[i].angle) > Deviation(vs[WorstIndex(vs[..i])].angle) then i else WorstIndex(vs[..i])
  {
    assert vs[..i + 1][..i] == vs[..i];
  }

  /** `list.pop(k)`. */
  function RemoveAt<T>(s: seq<T>, k: nat): (r: seq<T>)
    requires k < |s|
    ensures |r| == |s| - 1
    ensures forall j :: 0 <= j < |r| ==> r[j] == if j < k then s[j] else s[j + 1]
  {
    s[..k] + s[k + 1..]
  }

  /** The while loop: drop the worst vertex until at most four remain. */
  function Prune(vs: seq<Vertex>): seq<Vertex>
    decreases |vs|
  {
    if |vs| <= 4 then vs else Prune(RemoveAt(vs, WorstIndex(vs)))
  }

  /** `[point for point, angle in vs]`. */
  function Points(vs: seq<Vertex>): (ps: seq<Point>)
    ensures |ps| == |vs|
    ensures forall i :: 0 <= i < |vs| ==> ps[i] == vs[i].point
  {
    seq(|vs|, i requires 0 <= i < |vs| => vs[i].point)
  }

  /** `Polygon(points)`: shapely refuses a shell of one or two points; any
      other sequence of points makes a polygon. */
  function PolygonOf(ps: seq<Point>): (r: Option<seq<Point>>)
    ensures r.None? <==> 0 < |ps| < 3
    ensures r.Some? ==> r.value == ps
  {
    if 0 < |ps| < 3 then None else Some(ps)
  }

  function Min(a: int, b: int): int
  {
    if a <= b then a else b
  }

  /** What `find_closest_to_right_angles` returns for a ring of coordinates. */
  function ClosestToRightAngles(coords: seq<Point>, angle: (Point, Point, Point) -> real): Option<seq<Point>>
  {
    var pruned := Prune(VertexAngles(OpenRing(coords), angle));
    PolygonOf(Points(pruned[..Min(4, |pruned|)]))
  }

  // ---------------------------------------------------------------------------
  // What pruning keeps.

  function Range(n: nat): (r: seq<nat>)
    ensures |r| == n
    ensures forall i :: 0 <= i < n ==> r[i] == i
  {
    seq(n, i requires 0 <= i < n => i)
  }

  /** Renumbers indices into `RemoveAt(s, w)` as indices into `s`. */
  function Lift(idx: seq<nat>, w: nat): (r: seq<nat>)
    ensures |r| == |idx|
    ensures forall k :: 0 <= k < |idx| ==> r[k] == if idx[k] < w then idx[k] else idx[k] + 1
  {
    seq(|idx|, k requires 0 <= k < |idx| => if idx[k] < w then idx[k] else idx[k] + 1)
  }

  /** The positions, in the original list, of the vertices pruning keeps:
      min(n, 4) distinct positions in increasing order. */
  function Survivors(vs: seq<Vertex>): (idx: seq<nat>)
    ensures |idx| == Min(|vs|, 4)
    ensures forall k :: 0 <= k < |idx| ==> idx[k] < |vs|
    ensures forall k, l :: 0 <= k < l < |idx| ==> idx[k] < idx[l]
    decreases |vs|
  {
    if |vs| <= 4 then Range(|vs|)
    else
      var w := WorstIndex(vs);
      Lift(Survivors(RemoveAt(vs, w)), w)
  }

  /** At most four vertices remain, and a list of four or fewer is left as it
      is. */
  lemma {:induction false} PruneLength(vs: seq<Vertex>)
    ensures |Prune(vs)| == Min(|vs|, 4)
    ensures |vs| <= 4 ==> Prune(vs) == vs
    decreases |vs|
  {
    if |vs| > 4 {
      PruneLength(RemoveAt(vs, WorstIndex(vs)));
    }
  }

  /** Pruning keeps an ordered selection of the vertices ("this keeps the
      points in order"). */
  lemma {:induction false} PruneSelects(vs: seq<Vertex>)
    ensures var idx := Survivors(vs);
      && |idx| == |Prune(vs)|
      && (forall k :: 0 <= k < |idx| ==> Prune(vs)[k] == vs[idx[k]])
    decreases |vs|
  {
    PruneLength(vs);
    if |vs| > 4 {
      var w := WorstIndex(vs);
      var rest := RemoveAt(vs, w);
      PruneSelects(rest);
      assert Survivors(vs) == Lift(Survivors(rest), w);
    }
  }

  /** Every vertex outside the selection `idx` deviates from a right angle
      at least as much as every vertex in it. */
  predicate DropsWorst(vs: seq<Vertex>, idx: seq<nat>)
    requires forall k :: 0 <= k < |idx| ==> idx[k] < |vs|
  {
    forall j, k :: 0 <= j < |vs| && 0 <= k < |idx| && j !in idx ==>
      Deviation(vs[j].angle) >= Deviation(vs[idx[k]].angle)
  }

  /** One round of the while loop keeps `DropsWorst`: the vertex removed is
      at least as bad as every other. */
  lemma DropsWorstStep(vs: seq<Vertex>, w: nat, inner: seq<nat>)
    requires w < |vs|
    requires forall i :: 0 <= i < |vs| ==> Deviation(vs[i].angle) <= Deviation(vs[w].angle)
    requires forall k :: 0 <= k < |inner| ==> inner[k] < |vs| - 1
    requires DropsWorst(RemoveAt(vs, w), inner)
    ensures forall k :: 0 <= k < |inner| ==> Lift(inner, w)[k] < |vs|
    ensures DropsWorst(vs, Lift(inner, w))
  {
    var rest := RemoveAt(vs, w);
    var idx := Lift(inner, w);
    forall j, k | 0 <= j < |vs| && 0 <= k < |idx| && j !in idx
      ensures Deviation(vs[j].angle) >= Deviation(vs[idx[k]].angle)
    {
      if j != w {
        var j' := if j < w then j else j - 1;
        assert rest[j'] == vs[j];
        assert rest[inner[k]] == vs[idx[k]];
      }
    }
  }

  /** Every vertex pruning drops deviates from a right angle at least as much
      as every vertex it keeps. */
  lemma {:induction false} PruneDropsWorst(vs: seq<Vertex>)
    ensures DropsWorst(vs, Survivors(vs))
    decreases |vs|
  {
    if |vs| > 4 {
      var w := WorstIndex(vs);
      PruneDropsWorst(RemoveAt(vs, w));
      DropsWorstStep(vs, w, Survivors(RemoveAt(vs, w)));
    } else {
      forall j | 0 <= j < |vs|
        ensures j in Survivors(vs)
      {
        assert Survivors(vs)[j] == j;
      }
    }
  }

  /** The whole function: no polygon when the open ring has one or two points;
      otherwise the polygon through min(n, 4) of its n points, in ring order,
      none of them further from a right angle than any point left out, and
      through all of them when there are at most four. */
  lemma ClosestToRightAnglesSpec(coords: seq<Point>, angle: (Point, Point, Point) -> real)
    ensures var points := OpenRing(coords);
      var vs := VertexAngles(points, angle);
      var r := ClosestToRightAngles(coords, angle);
      && (r.None? <==> 0 < |points| < 3)
      && (r.Some? && |points| <= 4 ==> r.value == points)
      && (r.Some? ==>
            var idx := Survivors(vs);
            && |r.value| == Min(|points|, 4) == |idx|
            && (forall k :: 0 <= k < |idx| ==> idx[k] < |points| && r.value[k] == points[idx[k]])
            && (forall k, l :: 0 <= k < l < |idx| ==> idx[k] < idx[l])
            && DropsWorst(vs, idx))
  {
    var points := OpenRing(coords);
    var vs := VertexAngles(points, angle);
    PruneLength(vs);
    PruneSelects(vs);
    PruneDropsWorst(vs);
    var pruned := Prune(vs);
    assert pruned[..Min(4, |pruned|)] == pruned;
  }

  /** The scan for `worst_angle_index` inside the while loop. */
  method WorstAngleIndex(angles: seq<Vertex>) returns (worst: nat)
    requires |angles| > 0
    ensures worst == WorstIndex(angles)
  {
    worst := 0;
    for i := 0 to |angles|
      invariant worst < |angles|
      invariant i == 0 ==> worst == 0
      invariant i > 0 ==> worst == WorstIndex(angles[..i])
    {
      if i > 0 {
        WorstIndexStep(angles, i);
      }
      if Deviation(angles[i].angle) > Deviation(angles[worst].angle) {
        worst := i;
      }
    }
    assert angles[..|angles|] == angles;
  }

  /** `find_closest_to_right_angles`. */
  method FindClosestToRightAngles(coords: seq<Point>, angle: (Point, Point, Point) -> real)
    returns (r: Option<seq<Point>>)
    ensures r == ClosestToRightAngles(coords, angle)
  {
    var points := OpenRing(coords);
    var angles: seq<Vertex> := [];
    for i := 0 to |points|
      invariant angles == VertexAngles(points, angle)[..i]
    {
      var a := points[Prev(i, |points|)];
      var b := points[i];
      var c := points[Next(i, |points|)];
      angles := angles + [Vertex(b, angle(a, b, c))];
    }
    assert angles == VertexAngles(points, angle);
    ghost var goal := Prune(angles);
    while |angles| > 4
      invariant Prune(angles) == goal
      decreases |angles|
    {
      var worst := WorstAngleIndex(angles);
      angles := angles[..worst] + angles[worst + 1..];
    }
    var closest := Points(angles[..Min(4, |angles|)]);
    r := PolygonOf(closest);
  }
}
