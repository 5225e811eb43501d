/** The bounds computed by `Mesh::calculateBounds` and
    `Model::calculateModelBounds`, as functions of the data they scan. Each
    fold goes left to right over a prefix, the way the source loops do, so
    that the loops can be proved against them one step at a time. */
module Bounds {
  import opened Geometry

  /** Axis-aligned bounds and the bounding sphere, whose radius is kept squared. */
  datatype Bounds = Bounds(min: Vec3, max: Vec3, center: Vec3, radiusSq: real)

  /** What an empty vertex list (or an empty mesh list) yields: everything zero. */
  const NoBounds := Bounds(Zero3, Zero3, Zero3, 0.0)

  /** The min and max corner of one mesh, as the model sees it. */
  datatype Box = Box(lo: Vec3, hi: Vec3)

  /** Componentwise minimum of a non-empty point sequence. */
  function MinCorner(ps: seq<Vec3>): Vec3
    requires |ps| > 0
  {
    if |ps| == 1 then ps[0] else MinV(MinCorner(ps[..|ps| - 1]), ps[|ps| - 1])
  }

  /** Componentwise maximum of a non-empty point sequence. */
  function MaxCorner(ps: seq<Vec3>): Vec3
    requires |ps| > 0
  {
    if |ps| == 1 then ps[0] else MaxV(MaxCorner(ps[..|ps| - 1]), ps[|ps| - 1])
  }

  /** The running `maxDistSq`: starts at 0 and keeps the largest squared distance to `c`. */
  function MaxDistSq(ps: seq<Vec3>, c: Vec3): real {
    if ps == [] then 0.0 else Max(MaxDistSq(ps[..|ps| - 1], c), DistSq(ps[|ps| - 1], c))
  }

  function Positions(vs: seq<Vertex>): seq<Vec3> {
    seq(|vs|, i requires 0 <= i < |vs| => vs[i].position)
  }

  /** The bounds a mesh with vertex list `vs` must carry. */
  function BoundsOf(vs: seq<Vertex>): Bounds {
    if |vs| == 0 then NoBounds
    else
      var ps := Positions(vs);
      var lo := MinCorner(ps);
      var hi := MaxCorner(ps);
      var c := Mid(lo, hi);
      Bounds(lo, hi, c, MaxDistSq(ps, c))
  }

  /** `MinCorner` lies below, and `MaxCorner` above, every point. */
  lemma {:induction false} CornersEnclose(ps: seq<Vec3>)
    requires |ps| > 0
    ensures forall i :: 0 <= i < |ps| ==> LeV(MinCorner(ps), ps[i]) && LeV(ps[i], MaxCorner(ps))
  {
    if |ps| > 1 {
      var init := ps[..|ps| - 1];
      CornersEnclose(init);
      forall i | 0 <= i < |ps|
        ensures LeV(MinCorner(ps), ps[i]) && LeV(ps[i], MaxCorner(ps))
      {
        if i < |ps| - 1 {
          assert ps[i] == init[i];
        }
      }
    }
  }

  /** Each component of `MinCorner` and of `MaxCorner` is that component of some point. */
  lemma {:induction false} CornersAttained(ps: seq<Vec3>)
    requires |ps| > 0
    ensures exists i :: 0 <= i < |ps| && MinCorner(ps).x == ps[i].x
    ensures exists i :: 0 <= i < |ps| && MinCorner(ps).y == ps[i].y
    ensures exists i :: 0 <= i < |ps| && MinCorner(ps).z == ps[i].z
    ensures exists i :: 0 <= i < |ps| && MaxCorner(ps).x == ps[i].x
    ensures exists i :: 0 <= i < |ps| && MaxCorner(ps).y == ps[i].y
    ensures exists i :: 0 <= i < |ps| && MaxCorner(ps).z == ps[i].z
  {
    if |ps| == 1 {
      assert MinCorner(ps) == ps[0] && MaxCorner(ps) == ps[0];
    } else {
      var n := |ps| - 1;
      var init := ps[..n];
      CornersAttained(init);
      assert forall i :: 0 <= i < n ==> init[i] == ps[i];
      var lo, hi := MinCorner(ps), MaxCorner(ps);
      assert lo.x == MinCorner(init).x || lo.x == ps[n].x;
      assert lo.y == MinCorner(init).y || lo.y == ps[n].y;
      assert lo.z == MinCorner(init).z || lo.z == ps[n].z;
      assert hi.x == MaxCorner(init).x || hi.x == ps[n].x;
      assert hi.y == MaxCorner(init).y || hi.y == ps[n].y;
      assert hi.z == MaxCorner(init).z || hi.z == ps[n].z;
    }
  }

  /** `MaxDistSq` is at least the squared distance of every point, and never negative. */
  lemma {:induction false} MaxDistSqCovers(ps: seq<Vec3>, c: Vec3)
    ensures MaxDistSq(ps, c) >= 0.0
    ensures forall i :: 0 <= i < |ps| ==> DistSq(ps[i], c) <= MaxDistSq(ps, c)
  {
    if ps != [] {
      var init := ps[..|ps| - 1];
      MaxDistSqCovers(init, c);
      forall i | 0 <= i < |ps| - 1
        ensures DistSq(ps[i], c) <= MaxDistSq(ps, c)
      {
        assert ps[i] == init[i];
      }
    }
  }

  /** On a non-empty sequence `MaxDistSq` is the squared distance of some point. */
  lemma {:induction false} MaxDistSqAttained(ps: seq<Vec3>, c: Vec3)
    requires |ps| > 0
    ensures exists i :: 0 <= i < |ps| && MaxDistSq(ps, c) == DistSq(ps[i], c)
  {
    var n := |ps| - 1;
    var init := ps[..n];
    if n == 0 {
      assert MaxDistSq(init, c) == 0.0;
      assert MaxDistSq(ps, c) == DistSq(ps[0], c);
    } else if MaxDistSq(ps, c) != DistSq(ps[n], c) {
      MaxDistSqAttained(init, c);
      var i :| 0 <= i < n && MaxDistSq(init, c) == DistSq(init[i], c);
      assert init[i] == ps[i];
    }
  }

  /** What `calculateBounds` promises about a non-empty vertex list: the box
      and the sphere enclose every position, and the center is the midpoint. */
  lemma BoundsOfEncloses(vs: seq<Vertex>)
    requires |vs| > 0
    ensures BoundsOf(vs).center == Mid(BoundsOf(vs).min, BoundsOf(vs).max)
    ensures LeV(BoundsOf(vs).min, BoundsOf(vs).max) && BoundsOf(vs).radiusSq >= 0.0
    ensures forall i :: 0 <= i < |vs| ==>
      && LeV(BoundsOf(vs).min, vs[i].position) && LeV(vs[i].position, BoundsOf(vs).max)
      && DistSq(vs[i].position, BoundsOf(vs).center) <= BoundsOf(vs).radiusSq
  {
    var ps := Positions(vs);
    var b := BoundsOf(vs);
    CornersEnclose(ps);
    MaxDistSqCovers(ps, b.center);
    assert LeV(b.min, ps[0]) && LeV(ps[0], b.max);
    forall i | 0 <= i < |vs|
      ensures LeV(b.min, vs[i].position) && LeV(vs[i].position, b.max) && DistSq(vs[i].position, b.center) <= b.radiusSq
    {
      assert ps[i] == vs[i].position;
    }
  }

  /** ... and the box is the tightest one: each face passes through some
      position, and the sphere passes through some position. */
  lemma BoundsOfAttained(vs: seq<Vertex>)
    requires |vs| > 0
    ensures exists i :: 0 <= i < |vs| && BoundsOf(vs).min.x == vs[i].position.x
    ensures exists i :: 0 <= i < |vs| && BoundsOf(vs).min.y == vs[i].position.y
    ensures exists i :: 0 <= i < |vs| && BoundsOf(vs).min.z == vs[i].position.z
    ensures exists i :: 0 <= i < |vs| && BoundsOf(vs).max.x == vs[i].position.x
    ensures exists i :: 0 <= i < |vs| && BoundsOf(vs).max.y == vs[i].position.y
    ensures exists i :: 0 <= i < |vs| && BoundsOf(vs).max.z == vs[i].position.z
    ensures exists i :: 0 <= i < |vs| && BoundsOf(vs).radiusSq == DistSq(vs[i].position, BoundsOf(vs).center)
  {
    var ps := Positions(vs);
    var b := BoundsOf(vs);
    CornersAttained(ps);
    MaxDistSqAttained(ps, b.center);
    assert forall i :: 0 <= i < |vs| ==> ps[i] == vs[i].position;
  }

  /** Every point moved by `t`. */
  function Shifted(ps: seq<Vec3>, t: Vec3): (qs: seq<Vec3>)
    ensures |qs| == |ps|
  {
    seq(|ps|, i requires 0 <= i < |ps| => Add(ps[i], t))
  }

  /** Moving every point by `t` moves both corners by `t`. */
  lemma {:induction false} CornersShift(ps: seq<Vec3>, t: Vec3)
    requires |ps| > 0
    ensures MinCorner(Shifted(ps, t)) == Add(MinCorner(ps), t)
    ensures MaxCorner(Shifted(ps, t)) == Add(MaxCorner(ps), t)
  {
    if |ps| > 1 {
      var n := |ps| - 1;
      assert Shifted(ps, t)[..n] == Shifted(ps[..n], t);
      CornersShift(ps[..n], t);
    }
  }

  /** Moving the points and the center by the same `t` keeps every distance. */
  lemma {:induction false} MaxDistSqShift(ps: seq<Vec3>, c: Vec3, t: Vec3)
    ensures MaxDistSq(Shifted(ps, t), Add(c, t)) == MaxDistSq(ps, c)
  {
    if ps != [] {
      var n := |ps| - 1;
      assert Shifted(ps, t)[..n] == Shifted(ps[..n], t);
      MaxDistSqShift(ps[..n], c, t);
      assert DistSq(Add(ps[n], t), Add(c, t)) == DistSq(ps[n], c);
    }
  }

  // ---------------------------------------------------------------------
  // Aggregate bounds of a model, over the boxes of its meshes.

  function Los(boxes: seq<Box>): seq<Vec3> {
    seq(|boxes|, i requires 0 <= i < |boxes| => boxes[i].lo)
  }

  function His(boxes: seq<Box>): seq<Vec3> {
    seq(|boxes|, i requires 0 <= i < |boxes| => boxes[i].hi)
  }

  /** The radius loop of `calculateModelBounds` as written: for each mesh,
      the squared distance from `c` to its min corner and to its max corner. */
  function CornerPairRadiusSq(boxes: seq<Box>, c: Vec3): real {
    if boxes == [] then 0.0
    else
      var b := boxes[|boxes| - 1];
      Max(Max(CornerPairRadiusSq(boxes[..|boxes| - 1], c), DistSq(b.lo, c)), DistSq(b.hi, c))
  }

  /** Squared distance from `c` to the farthest of the eight corners of `b`. */
  function FarCornerDistSq(b: Box, c: Vec3): real {
    Max(Sq(b.lo.x - c.x), Sq(b.hi.x - c.x))
      + Max(Sq(b.lo.y - c.y), Sq(b.hi.y - c.y))
      + Max(Sq(b.lo.z - c.z), Sq(b.hi.z - c.z))
  }

  /** The corrected radius: for each mesh, the farthest corner of its box. */
  function FarCornerRadiusSq(boxes: seq<Box>, c: Vec3): real {
    if boxes == [] then 0.0
    else Max(FarCornerRadiusSq(boxes[..|boxes| - 1], c), FarCornerDistSq(boxes[|boxes| - 1], c))
  }

  /** The aggregate bounds a model with mesh boxes `boxes` must carry. */
  function ModelBoundsOf(boxes: seq<Box>): Bounds {
    if |boxes| == 0 then NoBounds
    else
      var lo := MinCorner(Los(boxes));
      var hi := MaxCorner(His(boxes));
      var c := Mid(lo, hi);
      Bounds(lo, hi, c, FarCornerRadiusSq(boxes, c))
  }

  /** The as-written radius bounds the min and max corner of every box, is never
      negative, and on a non-empty list is attained at one of those corners. */
  lemma {:induction false} CornerPairRadiusCovers(boxes: seq<Box>, c: Vec3)
    ensures CornerPairRadiusSq(boxes, c) >= 0.0
    ensures forall i :: 0 <= i < |boxes| ==>
      DistSq(boxes[i].lo, c) <= CornerPairRadiusSq(boxes, c) && DistSq(boxes[i].hi, c) <= CornerPairRadiusSq(boxes, c)
    ensures |boxes| > 0 ==>
      exists i :: 0 <= i < |boxes| && (CornerPairRadiusSq(boxes, c) == DistSq(boxes[i].lo, c) || CornerPairRadiusSq(boxes, c) == DistSq(boxes[i].hi, c))
  {
    if boxes != [] {
      var n := |boxes| - 1;
      var init := boxes[..n];
      CornerPairRadiusCovers(init, c);
      assert forall i :: 0 <= i < n ==> init[i] == boxes[i];
      var r := CornerPairRadiusSq(boxes, c);
      if r != DistSq(boxes[n].lo, c) && r != DistSq(boxes[n].hi, c) {
        assert r == CornerPairRadiusSq(init, c) && n > 0;
        var i :| 0 <= i < n && (r == DistSq(init[i].lo, c) || r == DistSq(init[i].hi, c));
        assert init[i] == boxes[i];
      }
    }
  }

  /** (v - c)^2 is at most the larger of (lo - c)^2 and (hi - c)^2 when lo <= v <= hi. */
  lemma SqBetween(lo: real, v: real, hi: real, c: real)
    requires lo <= v <= hi
    ensures Sq(v - c) <= Max(Sq(lo - c), Sq(hi - c))
  {
    if v >= c {
      assert Sq(hi - c) - Sq(v - c) == (hi - v) * (hi + v - 2.0 * c);
      ProductNonNegative(hi - v, hi + v - 2.0 * c);
    } else {
      assert Sq(lo - c) - Sq(v - c) == (v - lo) * (2.0 * c - v - lo);
      ProductNonNegative(v - lo, 2.0 * c - v - lo);
    }
  }

  lemma ProductNonNegative(a: real, b: real)
    requires a >= 0.0 && b >= 0.0
    ensures a * b >= 0.0
  {
  }

  /** Every point of a box is within its farthest corner's distance of `c`;
      so are its min and max corner. */
  lemma FarCornerCoversBox(b: Box, c: Vec3, p: Vec3)
    requires LeV(b.lo, p) && LeV(p, b.hi)
    ensures DistSq(p, c) <= FarCornerDistSq(b, c)
    ensures DistSq(b.lo, c) <= FarCornerDistSq(b, c) && DistSq(b.hi, c) <= FarCornerDistSq(b, c)
  {
    SqBetween(b.lo.x, p.x, b.hi.x, c.x);
    SqBetween(b.lo.y, p.y, b.hi.y, c.y);
    SqBetween(b.lo.z, p.z, b.hi.z, c.z);
  }

  /** The corrected radius bounds every point of every box, and is never below
      the as-written radius (the correction only makes the sphere larger). */
  lemma {:induction false} FarCornerRadiusCovers(boxes: seq<Box>, c: Vec3)
    requires forall i :: 0 <= i < |boxes| ==> LeV(boxes[i].lo, boxes[i].hi)
    ensures forall i, p :: 0 <= i < |boxes| && LeV(boxes[i].lo, p) && LeV(p, boxes[i].hi) ==>
      DistSq(p, c) <= FarCornerRadiusSq(boxes, c)
    ensures CornerPairRadiusSq(boxes, c) <= FarCornerRadiusSq(boxes, c)
  {
    if boxes != [] {
      var n := |boxes| - 1;
      var init := boxes[..n];
      assert forall i :: 0 <= i < n ==> init[i] == boxes[i];
      FarCornerRadiusCovers(init, c);
      FarCornerCoversBox(boxes[n], c, boxes[n].lo);
      forall i, p | 0 <= i < |boxes| && LeV(boxes[i].lo, p) && LeV(p, boxes[i].hi)
        ensures DistSq(p, c) <= FarCornerRadiusSq(boxes, c)
      {
        FarCornerCoversBox(boxes[i], c, p);
        if i < n {
          assert init[i] == boxes[i];
        }
      }
    }
  }

  /** What `calculateModelBounds` promises about a non-empty mesh list: the
      model box holds every mesh box, the center is its midpoint, and the
      sphere holds every point of every mesh box. */
  lemma ModelBoundsOfEncloses(boxes: seq<Box>)
    requires |boxes| > 0
    requires forall i :: 0 <= i < |boxes| ==> LeV(boxes[i].lo, boxes[i].hi)
    ensures ModelBoundsOf(boxes).center == Mid(ModelBoundsOf(boxes).min, ModelBoundsOf(boxes).max)
    ensures forall i :: 0 <= i < |boxes| ==>
      LeV(ModelBoundsOf(boxes).min, boxes[i].lo) && LeV(boxes[i].hi, ModelBoundsOf(boxes).max)
    ensures forall i, p :: 0 <= i < |boxes| && LeV(boxes[i].lo, p) && LeV(p, boxes[i].hi) ==>
      DistSq(p, ModelBoundsOf(boxes).center) <= ModelBoundsOf(boxes).radiusSq
  {
    var b := ModelBoundsOf(boxes);
    var los, his := Los(boxes), His(boxes);
    CornersEnclose(los);
    CornersEnclose(his);
    FarCornerRadiusCovers(boxes, b.center);
    forall i | 0 <= i < |boxes|
      ensures LeV(b.min, boxes[i].lo) && LeV(boxes[i].hi, b.max)
    {
      assert los[i] == boxes[i].lo && his[i] == boxes[i].hi;
    }
  }

  /** ... and it is the smallest such box: each of its faces is a face of some mesh box. */
  lemma ModelBoundsOfAttained(boxes: seq<Box>)
    requires |boxes| > 0
    ensures exists i :: 0 <= i < |boxes| && ModelBoundsOf(boxes).min.x == boxes[i].lo.x
    ensures exists i :: 0 <= i < |boxes| && ModelBoundsOf(boxes).min.y == boxes[i].lo.y
    ensures exists i :: 0 <= i < |boxes| && ModelBoundsOf(boxes).min.z == boxes[i].lo.z
    ensures exists i :: 0 <= i < |boxes| && ModelBoundsOf(boxes).max.x == boxes[i].hi.x
    ensures exists i :: 0 <= i < |boxes| && ModelBoundsOf(boxes).max.y == boxes[i].hi.y
    ensures exists i :: 0 <= i < |boxes| && ModelBoundsOf(boxes).max.z == boxes[i].hi.z
  {
    var los, his := Los(boxes), His(boxes);
    CornersAttained(los);
    CornersAttained(his);
    assert forall i :: 0 <= i < |boxes| ==> los[i] == boxes[i].lo && his[i] == boxes[i].hi;
  }

  lemma CornerPairRadiusOfTwo(a: Box, b: Box, c: Vec3)
    ensures CornerPairRadiusSq([a, b], c) == Max(Max(Max(Max(0.0, DistSq(a.lo, c)), DistSq(a.hi, c)), DistSq(b.lo, c)), DistSq(b.hi, c))
  {
    assert [a, b][..1] == [a];
    assert [a][..0] == [];
    assert CornerPairRadiusSq([a], c) == Max(Max(0.0, DistSq(a.lo, c)), DistSq(a.hi, c));
  }

  lemma CornersOfTwo(a: Box, b: Box)
    ensures MinCorner(Los([a, b])) == MinV(a.lo, b.lo) && MaxCorner(His([a, b])) == MaxV(a.hi, b.hi)
  {
    assert Los([a, b]) == [a.lo, b.lo] && [a.lo, b.lo][..1] == [a.lo];
    assert His([a, b]) == [a.hi, b.hi] && [a.hi, b.hi][..1] == [a.hi];
  }

  lemma CounterexampleDistances()
    ensures DistSq(Vec3(6.0, 0.0, 0.0), Vec3(5.0, 5.0, 0.0)) == 26.0
    ensures DistSq(Vec3(10.0, 4.0, 0.0), Vec3(5.0, 5.0, 0.0)) == 26.0
    ensures DistSq(Vec3(0.0, 6.0, 0.0), Vec3(5.0, 5.0, 0.0)) == 26.0
    ensures DistSq(Vec3(4.0, 10.0, 0.0), Vec3(5.0, 5.0, 0.0)) == 26.0
    ensures DistSq(Vec3(10.0, 0.0, 0.0), Vec3(5.0, 5.0, 0.0)) == 50.0
  {
  }

  /** A vertex at `p`; only its position matters to the bounds. */
  function VertexAt(p: Vec3): Vertex {
    Vertex(p, Zero3, Vec2(0.0, 0.0), Zero3, Zero3)
  }

  /** The box of the mesh with vertex list `vs`. */
  function BoxOf(vs: seq<Vertex>): Box {
    Box(BoundsOf(vs).min, BoundsOf(vs).max)
  }

  /** The box of a two-vertex mesh. */
  lemma BoxOfTwo(p: Vec3, q: Vec3)
    ensures BoxOf([VertexAt(p), VertexAt(q)]) == Box(MinV(p, q), MaxV(p, q))
  {
    var ps := Positions([VertexAt(p), VertexAt(q)]);
    assert ps == [p, q];
    assert ps[..1] == [p];
    assert MinCorner(ps) == MinV(MinCorner([p]), q);
    assert MaxCorner(ps) == MaxV(MaxCorner([p]), q);
  }

  /** The two meshes of the counterexample below. */
  function FirstMesh(): seq<Vertex> {
    [VertexAt(Vec3(10.0, 0.0, 0.0)), VertexAt(Vec3(6.0, 4.0, 0.0))]
  }

  function SecondMesh(): seq<Vertex> {
    [VertexAt(Vec3(0.0, 10.0, 0.0)), VertexAt(Vec3(4.0, 6.0, 0.0))]
  }

  lemma FirstMeshBox()
    ensures BoxOf(FirstMesh()) == Box(Vec3(6.0, 0.0, 0.0), Vec3(10.0, 4.0, 0.0))
  {
    BoxOfTwo(Vec3(10.0, 0.0, 0.0), Vec3(6.0, 4.0, 0.0));
  }

  lemma SecondMeshBox()
    ensures BoxOf(SecondMesh()) == Box(Vec3(0.0, 6.0, 0.0), Vec3(4.0, 10.0, 0.0))
  {
    BoxOfTwo(Vec3(0.0, 10.0, 0.0), Vec3(4.0, 6.0, 0.0));
  }

  /** Center and as-written squared radius of the two counterexample boxes. */
  lemma CounterexampleRadius()
    ensures var boxes := [Box(Vec3(6.0, 0.0, 0.0), Vec3(10.0, 4.0, 0.0)), Box(Vec3(0.0, 6.0, 0.0), Vec3(4.0, 10.0, 0.0))];
      && Mid(MinCorner(Los(boxes)), MaxCorner(His(boxes))) == Vec3(5.0, 5.0, 0.0)
      && CornerPairRadiusSq(boxes, Vec3(5.0, 5.0, 0.0)) == 26.0
  {
    var a := Box(Vec3(6.0, 0.0, 0.0), Vec3(10.0, 4.0, 0.0));
    var b := Box(Vec3(0.0, 6.0, 0.0), Vec3(4.0, 10.0, 0.0));
    CornersOfTwo(a, b);
    assert MinV(a.lo, b.lo) == Vec3(0.0, 0.0, 0.0) && MaxV(a.hi, b.hi) == Vec3(10.0, 10.0, 0.0);
    CounterexampleDistances();
    CornerPairRadiusOfTwo(a, b, Vec3(5.0, 5.0, 0.0));
  }

  /** The as-written radius can leave a vertex outside the model sphere. A
      mesh with vertices (10,0,0) and (6,4,0) has the box [6,10]x[0,4]x[0,0];
      one with vertices (0,10,0) and (4,6,0) has [0,4]x[6,10]x[0,0]. The
      model center is (5,5,0) and the as-written squared radius 26, while
      the vertex (10,0,0) of the first mesh is at squared distance 50. */
  lemma AsWrittenRadiusMissesCorner()
    ensures var boxes := [BoxOf(FirstMesh()), BoxOf(SecondMesh())];
      var c := Mid(MinCorner(Los(boxes)), MaxCorner(His(boxes)));
      && c == Vec3(5.0, 5.0, 0.0)
      && CornerPairRadiusSq(boxes, c) == 26.0
      && DistSq(FirstMesh()[0].position, c) == 50.0
  {
    FirstMeshBox();
    SecondMeshBox();
    CounterexampleRadius();
    CounterexampleDistances();
  }
}
