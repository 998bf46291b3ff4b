/** The convex polygon clipper of utils/Utils.java (Sutherland–Hodgman): the subject
    polygon is cut by every edge of the clip polygon in turn, the wrap-around edge
    first. */
module Clipping {
  import opened Wrappers
  import opened Constants

  /** Box2D's shape kinds. */
  datatype ShapeType = Circle | Edge | Polygon | Chain

  /** A fixture as the clipper sees it: its shape kind and, for a polygon, its vertices
      already converted to world coordinates by the owning body. */
  datatype Fixture = Fixture(shape: ShapeType, worldVertices: seq<Vector2>)

  /** Twice the signed area of the triangle `cp1, cp2, p`: positive when `p` lies to the
      left of the directed line from `cp1` to `cp2`. */
  function Cross(cp1: Vector2, cp2: Vector2, p: Vector2): real
  {
    (cp2.x - cp1.x) * (p.y - cp1.y) - (cp2.y - cp1.y) * (p.x - cp1.x)
  }

  /** The half-plane test of the clipper, strict: a point on the clip line is outside, so
      the ends of the clip edge never are inside. */
  predicate Inside(cp1: Vector2, cp2: Vector2, p: Vector2)
    ensures Inside(cp1, cp2, p) <==> Cross(cp1, cp2, p) > 0.0
    ensures Inside(cp1, cp2, p) ==> p != cp1 && p != cp2
  {
    (cp2.x - cp1.x) * (p.y - cp1.y) > (cp2.y - cp1.y) * (p.x - cp1.x)
  }

  /** The determinant whose inverse `intersection` multiplies by; zero exactly when the
      clip line and the segment `s, e` are parallel. */
  function Det(cp1: Vector2, cp2: Vector2, s: Vector2, e: Vector2): real
  {
    (cp1.x - cp2.x) * (s.y - e.y) - (cp1.y - cp2.y) * (s.x - e.x)
  }

  /** The crossing point of line `cp1, cp2` with line `s, e`, by Cramer's rule, as the
      clipper computes it. */
  function Intersection(cp1: Vector2, cp2: Vector2, s: Vector2, e: Vector2): Vector2
    requires Det(cp1, cp2, s, e) != 0.0
  {
    var dc := Vector2(cp1.x - cp2.x, cp1.y - cp2.y);
    var dp := Vector2(s.x - e.x, s.y - e.y);
    var n1 := cp1.x * cp2.y - cp1.y * cp2.x;
    var n2 := s.x * e.y - s.y * e.x;
    var n3 := 1.0 / (dc.x * dp.y - dc.y * dp.x);
    Vector2((n1 * dp.x - n2 * dc.x) * n3, (n1 * dp.y - n2 * dc.y) * n3)
  }

  /** The point at parameter `t` on the segment from `s` to `e`. */
  function Lerp(s: Vector2, e: Vector2, t: real): Vector2
  {
    Vector2(s.x + t * (e.x - s.x), s.y + t * (e.y - s.y))
  }

  /** Where along `s, e` the clip line is crossed. */
  function CrossingParameter(cp1: Vector2, cp2: Vector2, s: Vector2, e: Vector2): real
    requires Det(cp1, cp2, s, e) != 0.0
  {
    -Cross(cp1, cp2, s) / Det(cp1, cp2, s, e)
  }

  /** The determinant is the change of the side measure from `s` to `e`. */
  lemma DetIsSideChange(cp1: Vector2, cp2: Vector2, s: Vector2, e: Vector2)
    ensures Det(cp1, cp2, s, e) == Cross(cp1, cp2, e) - Cross(cp1, cp2, s)
  {
  }

  /** The clipper asks for a crossing point only when `s` and `e` lie on different sides,
      and then the lines are not parallel. */
  lemma CrossingIsDefined(cp1: Vector2, cp2: Vector2, s: Vector2, e: Vector2)
    requires Inside(cp1, cp2, s) != Inside(cp1, cp2, e)
    ensures Det(cp1, cp2, s, e) != 0.0
  {
    DetIsSideChange(cp1, cp2, s, e);
  }

  lemma NumeratorX(cp1: Vector2, cp2: Vector2, s: Vector2, e: Vector2)
    ensures (cp1.x * cp2.y - cp1.y * cp2.x) * (s.x - e.x) - (s.x * e.y - s.y * e.x) * (cp1.x - cp2.x)
      == s.x * Det(cp1, cp2, s, e) - Cross(cp1, cp2, s) * (e.x - s.x)
  {
  }

  lemma NumeratorY(cp1: Vector2, cp2: Vector2, s: Vector2, e: Vector2)
    ensures (cp1.x * cp2.y - cp1.y * cp2.x) * (s.y - e.y) - (s.x * e.y - s.y * e.x) * (cp1.y - cp2.y)
      == s.y * Det(cp1, cp2, s, e) - Cross(cp1, cp2, s) * (e.y - s.y)
  {
  }

  lemma DivideOut(a: real, b: real, c: real, d: real)
    requires d != 0.0
    ensures (a * d - b * c) * (1.0 / d) == a + (-b / d) * c
  {
    assert (a * d) * (1.0 / d) == a;
    assert (b * c) * (1.0 / d) == (b / d) * c;
  }

  /** The crossing point lies on the segment from `s` to `e`, at the crossing parameter. */
  lemma IntersectionIsOnSegment(cp1: Vector2, cp2: Vector2, s: Vector2, e: Vector2)
    requires Det(cp1, cp2, s, e) != 0.0
    ensures Intersection(cp1, cp2, s, e) == Lerp(s, e, CrossingParameter(cp1, cp2, s, e))
  {
    var d := Det(cp1, cp2, s, e);
    var c := Cross(cp1, cp2, s);
    NumeratorX(cp1, cp2, s, e);
    NumeratorY(cp1, cp2, s, e);
    DivideOut(s.x, c, e.x - s.x, d);
    DivideOut(s.y, c, e.y - s.y, d);
  }

  /** The side measure changes linearly along a segment. */
  lemma CrossAlongSegment(a: Vector2, b: Vector2, s: Vector2, e: Vector2, t: real)
    ensures Cross(a, b, Lerp(s, e, t)) == Cross(a, b, s) + t * (Cross(a, b, e) - Cross(a, b, s))
  {
  }

  /** Every point of a segment lies on the segment's own line. */
  lemma LerpOnOwnLine(s: Vector2, e: Vector2, t: real)
    ensures Cross(s, e, Lerp(s, e, t)) == 0.0
  {
  }

  /** The crossing point lies on the clip line and on the line through `s` and `e`. */
  lemma IntersectionOnBothLines(cp1: Vector2, cp2: Vector2, s: Vector2, e: Vector2)
    requires Det(cp1, cp2, s, e) != 0.0
    ensures Cross(cp1, cp2, Intersection(cp1, cp2, s, e)) == 0.0
    ensures Cross(s, e, Intersection(cp1, cp2, s, e)) == 0.0
  {
    var t := CrossingParameter(cp1, cp2, s, e);
    IntersectionIsOnSegment(cp1, cp2, s, e);
    CrossAlongSegment(cp1, cp2, s, e, t);
    DetIsSideChange(cp1, cp2, s, e);
    assert t * Det(cp1, cp2, s, e) == -Cross(cp1, cp2, s);
    LerpOnOwnLine(s, e, t);
  }

  /** When `s` and `e` lie on different sides the crossing parameter is in `[0, 1]`. */
  lemma CrossingParameterInUnit(cp1: Vector2, cp2: Vector2, s: Vector2, e: Vector2)
    requires Inside(cp1, cp2, s) != Inside(cp1, cp2, e)
    ensures Det(cp1, cp2, s, e) != 0.0
    ensures 0.0 <= CrossingParameter(cp1, cp2, s, e) <= 1.0
  {
    CrossingIsDefined(cp1, cp2, s, e);
    DetIsSideChange(cp1, cp2, s, e);
    var cs := Cross(cp1, cp2, s);
    var d := Det(cp1, cp2, s, e);
    if cs > 0.0 {
      QuotientInUnit(cs, -d);
      assert -cs / d == cs / -d;
    } else {
      QuotientInUnit(-cs, d);
    }
  }

  lemma QuotientInUnit(a: real, d: real)
    requires 0.0 <= a <= d && d > 0.0
    ensures 0.0 <= a / d <= 1.0
  {
  }

  /** A point of a segment whose ends both lie in a closed half-plane lies there too. */
  lemma LerpKeepsHalfPlane(a: Vector2, b: Vector2, s: Vector2, e: Vector2, t: real)
    requires 0.0 <= t <= 1.0
    requires Cross(a, b, s) >= 0.0 && Cross(a, b, e) >= 0.0
    ensures Cross(a, b, Lerp(s, e, t)) >= 0.0
  {
    CrossAlongSegment(a, b, s, e, t);
    var cs := Cross(a, b, s);
    var ce := Cross(a, b, e);
    assert cs + t * (ce - cs) == (1.0 - t) * cs + t * ce;
    assert (1.0 - t) * cs >= 0.0;
    assert t * ce >= 0.0;
  }

  /** What the inner loop emits for input vertex `e` with predecessor `s`. */
  function EdgeStep(cp1: Vector2, cp2: Vector2, s: Vector2, e: Vector2): (out: seq<Vector2>)
  {
    if Inside(cp1, cp2, e) then
      if !Inside(cp1, cp2, s) then
        CrossingIsDefined(cp1, cp2, s, e);
        [Intersection(cp1, cp2, s, e), e]
      else [e]
    else if Inside(cp1, cp2, s) then
      CrossingIsDefined(cp1, cp2, s, e);
      [Intersection(cp1, cp2, s, e)]
    else []
  }

  /** The predecessor of input vertex `i`: the last vertex for the first one. */
  function Prev(input: seq<Vector2>, i: int): Vector2
    requires 0 <= i < |input|
  {
    if i == 0 then input[|input| - 1] else input[i - 1]
  }

  /** The output of one clip edge after the first `k` input vertices. */
  function ClipRun(cp1: Vector2, cp2: Vector2, input: seq<Vector2>, k: int): seq<Vector2>
    requires 0 <= k <= |input|
  {
    if k == 0 then [] else ClipRun(cp1, cp2, input, k - 1) + EdgeStep(cp1, cp2, Prev(input, k - 1), input[k - 1])
  }

  /** One pass of the clipper over a non-empty vertex list against the edge `cp1, cp2`. */
  function ClipEdge(cp1: Vector2, cp2: Vector2, input: seq<Vector2>): seq<Vector2>
  {
    ClipRun(cp1, cp2, input, |input|)
  }

  /** The start vertex of clip edge `j`: edge 0 runs from the last vertex to the first. */
  function EdgeStart(clip: seq<Vector2>, j: int): Vector2
    requires 0 <= j < |clip|
  {
    if j == 0 then clip[|clip| - 1] else clip[j - 1]
  }

  /** The clipper's result from clip edge `j` on, given the working list `l` before that
      edge: `None` as soon as the list is empty before an edge. */
  function ClipFrom(l: seq<Vector2>, clip: seq<Vector2>, j: int): Option<seq<Vector2>>
    requires 0 <= j <= |clip|
    decreases |clip| - j
  {
    if j == |clip| then Some(l)
    else if l == [] then None
    else ClipFrom(ClipEdge(EdgeStart(clip, j), clip[j], l), clip, j + 1)
  }

  /** A Box2D polygon has at least three vertices, so the clip list is never empty. */
  ghost predicate WellFormedPolygon(f: Fixture)
  {
    f.shape == Polygon ==> |f.worldVertices| >= 1
  }

  /** The part of polygon `a` inside polygon `b`, or `None` when either is not a polygon
      or the working list ran empty before some clip edge. */
  function ClippedArea(a: Fixture, b: Fixture): Option<seq<Vector2>>
    requires WellFormedPolygon(b)
  {
    if a.shape != Polygon || b.shape != Polygon then None
    else ClipFrom(a.worldVertices, b.worldVertices, 0)
  }

  /** `getIntersection`: copies both vertex lists, then rewrites the working list once
      per clip edge, carrying the previous vertex `s` and the edge start `cp1` along. */
  method GetIntersection(fixtureA: Fixture, fixtureB: Fixture) returns (result: Option<seq<Vector2>>)
    requires WellFormedPolygon(fixtureB)
    ensures result == ClippedArea(fixtureA, fixtureB)
  {
    if fixtureA.shape != Polygon || fixtureB.shape != Polygon {
      return None;
    }
    var intersection := fixtureA.worldVertices;
    var clipPolygon := fixtureB.worldVertices;
    var cp1 := clipPolygon[|clipPolygon| - 1];
    var j := 0;
    while j < |clipPolygon|
      invariant 0 <= j <= |clipPolygon|
      invariant ClipFrom(intersection, clipPolygon, j) == ClipFrom(fixtureA.worldVertices, clipPolygon, 0)
      invariant cp1 == if j == 0 then clipPolygon[|clipPolygon| - 1] else clipPolygon[j - 1]
    {
      var cp2 := clipPolygon[j];
      if intersection == [] {
        return None;
      }
      intersection := ClipWithEdge(cp1, cp2, intersection);
      cp1 := cp2;
      j := j + 1;
    }
    return Some(intersection);
  }

  /** The inner loop of `getIntersection`: one pass over the working list against the
      clip edge `cp1, cp2`, starting from the last vertex as `s`. */
  method ClipWithEdge(cp1: Vector2, cp2: Vector2, inputList: seq<Vector2>) returns (intersection: seq<Vector2>)
    requires inputList != []
    ensures intersection == ClipEdge(cp1, cp2, inputList)
  {
    intersection := [];
    var s := inputList[|inputList| - 1];
    var i := 0;
    while i < |inputList|
      invariant 0 <= i <= |inputList|
      invariant intersection == ClipRun(cp1, cp2, inputList, i)
      invariant s == if i == 0 then inputList[|inputList| - 1] else inputList[i - 1]
    {
      var e := inputList[i];
      assert s == Prev(inputList, i);
      ghost var before := intersection;
      if Inside(cp1, cp2, e) {
        if !Inside(cp1, cp2, s) {
          CrossingIsDefined(cp1, cp2, s, e);
          intersection := intersection + [Intersection(cp1, cp2, s, e)];
        }
        intersection := intersection + [e];
      } else if Inside(cp1, cp2, s) {
        CrossingIsDefined(cp1, cp2, s, e);
        intersection := intersection + [Intersection(cp1, cp2, s, e)];
      }
      assert intersection == before + EdgeStep(cp1, cp2, s, e);
      s := e;
      i := i + 1;
    }
  }

  /** The strictly inside points of a list, in order. */
  function InsideOnly(cp1: Vector2, cp2: Vector2, l: seq<Vector2>): seq<Vector2>
  {
    if l == [] then [] else InsideOnly(cp1, cp2, l[..|l| - 1]) + (if Inside(cp1, cp2, l[|l| - 1]) then [l[|l| - 1]] else [])
  }

  lemma {:induction false} InsideOnlyConcat(cp1: Vector2, cp2: Vector2, a: seq<Vector2>, b: seq<Vector2>)
    ensures InsideOnly(cp1, cp2, a + b) == InsideOnly(cp1, cp2, a) + InsideOnly(cp1, cp2, b)
  {
    if b != [] {
      assert (a + b)[..|a + b| - 1] == a + b[..|b| - 1];
      InsideOnlyConcat(cp1, cp2, a, b[..|b| - 1]);
    } else {
      assert a + b == a;
    }
  }

  lemma InsideOnlySingleton(cp1: Vector2, cp2: Vector2, e: Vector2)
    ensures InsideOnly(cp1, cp2, [e]) == if Inside(cp1, cp2, e) then [e] else []
  {
    assert [e][..0] == [];
  }

  /** Lists with the same inside points, extended by lists with the same inside points,
      still have the same inside points. */
  lemma InsideOnlyAppend(cp1: Vector2, cp2: Vector2, a: seq<Vector2>, b: seq<Vector2>, c: seq<Vector2>, d: seq<Vector2>)
    requires InsideOnly(cp1, cp2, a) == InsideOnly(cp1, cp2, c)
    requires InsideOnly(cp1, cp2, b) == InsideOnly(cp1, cp2, d)
    ensures InsideOnly(cp1, cp2, a + b) == InsideOnly(cp1, cp2, c + d)
  {
    InsideOnlyConcat(cp1, cp2, a, b);
    InsideOnlyConcat(cp1, cp2, c, d);
  }

  /** One step emits at most two points; of them only `e` can be strictly inside, and it
      is emitted exactly when it is. */
  lemma EdgeStepFacts(cp1: Vector2, cp2: Vector2, s: Vector2, e: Vector2)
    ensures |EdgeStep(cp1, cp2, s, e)| <= 2
    ensures InsideOnly(cp1, cp2, EdgeStep(cp1, cp2, s, e)) == InsideOnly(cp1, cp2, [e])
    ensures forall p :: p in EdgeStep(cp1, cp2, s, e) ==> Cross(cp1, cp2, p) >= 0.0
  {
    InsideOnlySingleton(cp1, cp2, e);
    if Inside(cp1, cp2, s) != Inside(cp1, cp2, e) {
      CrossingIsDefined(cp1, cp2, s, e);
      IntersectionOnBothLines(cp1, cp2, s, e);
      var x := Intersection(cp1, cp2, s, e);
      assert !Inside(cp1, cp2, x);
      assert [x][..0] == [];
      assert InsideOnly(cp1, cp2, [x]) == [];
      if Inside(cp1, cp2, e) {
        assert [x, e][..1] == [x];
      }
    } else if Inside(cp1, cp2, e) {
      assert [e][..0] == [];
    }
  }

  /** One clip edge emits at most two points per input vertex. */
  lemma {:induction false} ClipRunSize(cp1: Vector2, cp2: Vector2, input: seq<Vector2>, k: int)
    requires 0 <= k <= |input|
    ensures |ClipRun(cp1, cp2, input, k)| <= 2 * k
  {
    if k > 0 {
      ClipRunSize(cp1, cp2, input, k - 1);
      EdgeStepFacts(cp1, cp2, Prev(input, k - 1), input[k - 1]);
    }
  }

  /** The strictly inside points of one clip edge's output are exactly the strictly inside
      input vertices, in their input order. */
  lemma {:induction false} ClipRunKeepsInsideVertices(cp1: Vector2, cp2: Vector2, input: seq<Vector2>, k: int)
    requires 0 <= k <= |input|
    ensures InsideOnly(cp1, cp2, ClipRun(cp1, cp2, input, k)) == InsideOnly(cp1, cp2, input[..k])
  {
    if k > 0 {
      var e := input[k - 1];
      var run := ClipRun(cp1, cp2, input, k - 1);
      var step := EdgeStep(cp1, cp2, Prev(input, k - 1), e);
      ClipRunKeepsInsideVertices(cp1, cp2, input, k - 1);
      assert InsideOnly(cp1, cp2, step) == InsideOnly(cp1, cp2, [e]) by {
        EdgeStepFacts(cp1, cp2, Prev(input, k - 1), e);
      }
      assert input[..k] == input[..k - 1] + [e];
      assert ClipRun(cp1, cp2, input, k) == run + step;
      InsideOnlyAppend(cp1, cp2, run, step, input[..k - 1], [e]);
    }
  }

  /** Every output point of a clip edge lies in that edge's closed half-plane. */
  lemma {:induction false} ClipRunOnOrInside(cp1: Vector2, cp2: Vector2, input: seq<Vector2>, k: int)
    requires 0 <= k <= |input|
    ensures forall p :: p in ClipRun(cp1, cp2, input, k) ==> Cross(cp1, cp2, p) >= 0.0
  {
    if k > 0 {
      ClipRunOnOrInside(cp1, cp2, input, k - 1);
      EdgeStepFacts(cp1, cp2, Prev(input, k - 1), input[k - 1]);
    }
  }

  /** A clip edge never moves points out of a closed half-plane that holds all its input:
      crossing points lie between two input vertices. */
  lemma {:induction false} ClipRunKeepsHalfPlane(cp1: Vector2, cp2: Vector2, input: seq<Vector2>, k: int, a: Vector2, b: Vector2)
    requires 0 <= k <= |input|
    requires forall q :: q in input ==> Cross(a, b, q) >= 0.0
    ensures forall p :: p in ClipRun(cp1, cp2, input, k) ==> Cross(a, b, p) >= 0.0
  {
    if k > 0 {
      ClipRunKeepsHalfPlane(cp1, cp2, input, k - 1, a, b);
      var s := Prev(input, k - 1);
      var e := input[k - 1];
      if Inside(cp1, cp2, s) != Inside(cp1, cp2, e) {
        CrossingParameterInUnit(cp1, cp2, s, e);
        IntersectionIsOnSegment(cp1, cp2, s, e);
        LerpKeepsHalfPlane(a, b, s, e, CrossingParameter(cp1, cp2, s, e));
      }
    }
  }

  /** A working list inside the half-planes of the edges before `j` ends up inside the
      half-planes of all edges: each edge puts its output into its own half-plane and keeps
      it in those of the earlier edges. */
  lemma {:induction false} ClipFromInsideEdges(l: seq<Vector2>, clip: seq<Vector2>, j: int)
    requires 0 <= j <= |clip|
    requires forall i, p :: 0 <= i < j && p in l ==> Cross(EdgeStart(clip, i), clip[i], p) >= 0.0
    ensures ClipFrom(l, clip, j).Some? ==>
      forall i, p :: 0 <= i < |clip| && p in ClipFrom(l, clip, j).value ==> Cross(EdgeStart(clip, i), clip[i], p) >= 0.0
    decreases |clip| - j
  {
    if j < |clip| && l != [] {
      var next := ClipEdge(EdgeStart(clip, j), clip[j], l);
      forall i | 0 <= i < j
        ensures forall p :: p in next ==> Cross(EdgeStart(clip, i), clip[i], p) >= 0.0
      {
        ClipRunKeepsHalfPlane(EdgeStart(clip, j), clip[j], l, |l|, EdgeStart(clip, i), clip[i]);
      }
      ClipRunOnOrInside(EdgeStart(clip, j), clip[j], l, |l|);
      ClipFromInsideEdges(next, clip, j + 1);
    }
  }

  /** The returned vertices lie inside every edge of the clip polygon, the wrap-around
      edge included. */
  lemma ClippedAreaInsideClip(a: Fixture, b: Fixture)
    requires WellFormedPolygon(b)
    ensures ClippedArea(a, b).Some? ==>
      forall i, p :: 0 <= i < |b.worldVertices| && p in ClippedArea(a, b).value ==>
        Cross(EdgeStart(b.worldVertices, i), b.worldVertices[i], p) >= 0.0
  {
    if a.shape == Polygon && b.shape == Polygon {
      ClipFromInsideEdges(a.worldVertices, b.worldVertices, 0);
    }
  }

  /** Only two polygons are clipped. */
  lemma NonPolygonsGiveNothing(a: Fixture, b: Fixture)
    requires WellFormedPolygon(b)
    requires a.shape != Polygon || b.shape != Polygon
    ensures ClippedArea(a, b) == None
  {
  }

  /** A working list that runs empty before some clip edge makes the clipper give up; one
      that runs empty on the last edge is returned empty. */
  lemma EmptyListGivesNothing(clip: seq<Vector2>, j: int)
    requires 0 <= j <= |clip|
    ensures ClipFrom([], clip, j) == if j < |clip| then None else Some([])
  {
  }

  /** The x and y of every vertex, in order: the layout `getPolygon` hands to `Polygon`. */
  function Flatten(vectors: seq<Vector2>): (flat: seq<real>)
    ensures |flat| == 2 * |vectors|
  {
    if vectors == [] then [] else Flatten(vectors[..|vectors| - 1]) + [vectors[|vectors| - 1].x, vectors[|vectors| - 1].y]
  }

  /** Reads vertices back from a flattened coordinate list. */
  function Unflatten(flat: seq<real>): seq<Vector2>
    requires |flat| % 2 == 0
  {
    if flat == [] then [] else Unflatten(flat[..|flat| - 2]) + [Vector2(flat[|flat| - 2], flat[|flat| - 1])]
  }

  /** Flattening loses nothing. */
  lemma {:induction false} UnflattenFlatten(vectors: seq<Vector2>)
    ensures Unflatten(Flatten(vectors)) == vectors
  {
    if vectors != [] {
      var n := |vectors|;
      var flat := Flatten(vectors);
      assert flat[..|flat| - 2] == Flatten(vectors[..n - 1]);
      UnflattenFlatten(vectors[..n - 1]);
    }
  }

  /** Vertex `i` sits at slots `2i` and `2i + 1`. */
  lemma {:induction false} FlattenSlots(vectors: seq<Vector2>, i: int)
    requires 0 <= i < |vectors|
    ensures Flatten(vectors)[2 * i] == vectors[i].x && Flatten(vectors)[2 * i + 1] == vectors[i].y
  {
    var n := |vectors|;
    if i < n - 1 {
      FlattenSlots(vectors[..n - 1], i);
    }
  }

  /** `getPolygon`: fills a fresh array of twice the vertex count with the coordinates and
      builds a polygon on it; the polygon refuses fewer than three vertices (six values). */
  method GetPolygon(vectors: seq<Vector2>) returns (polygon: Option<array<real>>)
    ensures polygon.None? <==> |vectors| < 3
    ensures polygon.Some? ==> fresh(polygon.value) && polygon.value[..] == Flatten(vectors)
  {
    var flattened := new real[|vectors| * 2];
    var i := 0;
    while i < |vectors|
      invariant 0 <= i <= |vectors|
      invariant forall k :: 0 <= k < i ==> flattened[2 * k] == vectors[k].x && flattened[2 * k + 1] == vectors[k].y
    {
      flattened[2 * i] := vectors[i].x;
      flattened[2 * i + 1] := vectors[i].y;
      i := i + 1;
    }
    forall m | 0 <= m < flattened.Length
      ensures flattened[m] == Flatten(vectors)[m]
    {
      FlattenSlots(vectors, m / 2);
    }
    if flattened.Length < 6 {
      return None;
    }
    return Some(flattened);
  }
}
