/** A mesh: its vertex and index lists, the textures and material it is
    drawn with, and the bounds derived from its vertices. */
module Meshes {
  import opened Geometry
  import opened Bounds
  import opened Textures

  /** The vertex `transform(m)` makes of `v`: the position moved by `m`, the
      normal turned by `m` and then normalised (`normalize` stands for
      glm::normalize); every other field as it was. */
  function TransformedVertex(m: Mat4, normalize: Vec3 -> Vec3, v: Vertex): (w: Vertex)
    ensures w.texCoords == v.texCoords && w.tangent == v.tangent && w.bitangent == v.bitangent
  {
    v.(position := TransformPoint(m, v.position), normal := normalize(TransformDirection(m, v.normal)))
  }

  /** Translating a vertex list by `t` moves its box and center by `t` and
      keeps its radius, whatever happens to the normals. */
  lemma TranslatedBounds(t: Vec3, normalize: Vec3 -> Vec3, vs: seq<Vertex>)
    requires |vs| > 0
    ensures var ws := seq(|vs|, i requires 0 <= i < |vs| => TransformedVertex(Translation(t), normalize, vs[i]));
      var b := BoundsOf(vs);
      BoundsOf(ws) == Bounds(Add(b.min, t), Add(b.max, t), Add(b.center, t), b.radiusSq)
  {
    var ws := seq(|vs|, i requires 0 <= i < |vs| => TransformedVertex(Translation(t), normalize, vs[i]));
    var ps := Positions(vs);
    forall i | 0 <= i < |vs|
      ensures Positions(ws)[i] == Shifted(ps, t)[i]
    {
      assert ws[i].position == TransformPoint(Translation(t), vs[i].position);
    }
    assert Positions(ws) == Shifted(ps, t);
    CornersShift(ps, t);
    var b := BoundsOf(vs);
    assert Mid(Add(b.min, t), Add(b.max, t)) == Add(b.center, t);
    MaxDistSqShift(ps, b.center, t);
  }

  class Mesh {
    var vertices: seq<Vertex>
    var indices: seq<u32>
    var textures: seq<Texture>

    // material used when no texture is bound
    var ambient: Vec3
    var diffuse: Vec3
    var specular: Vec3
    var shininess: real

    // derived from `vertices` by CalculateBounds
    var minBounds: Vec3
    var maxBounds: Vec3
    var center: Vec3
    /** The square of the bounding-sphere radius. */
    var radiusSq: real

    /** The bounds fields agree with the vertex list. */
    ghost predicate Valid()
      reads this
    {
      Bounds(minBounds, maxBounds, center, radiusSq) == BoundsOf(vertices)
    }

    /** Builds a mesh from copies of `vs` and `is`, with no textures, the
        default material, and bounds computed from `vs`. */
    constructor (vs: seq<Vertex>, idx: seq<u32>)
      ensures vertices == vs && indices == idx && textures == []
      ensures ambient == Vec3(0.1, 0.1, 0.1) && diffuse == Vec3(0.8, 0.8, 0.8)
      ensures specular == Vec3(0.5, 0.5, 0.5) && shininess == 32.0
      ensures Valid()
    {
      vertices := vs;
      indices := idx;
      textures := [];
      ambient := Vec3(0.1, 0.1, 0.1);
      diffuse := Vec3(0.8, 0.8, 0.8);
      specular := Vec3(0.5, 0.5, 0.5);
      shininess := 32.0;
      new;
      CalculateBounds();
    }

    /** Replaces the vertex list and re-derives the bounds; indices,
        textures and material stay as they were. */
    method SetVertices(vs: seq<Vertex>)
      modifies this`vertices, this`minBounds, this`maxBounds, this`center, this`radiusSq
      ensures vertices == vs && Valid()
    {
      vertices := vs;
      CalculateBounds();
    }

    /** Replaces the index list; vertices and bounds stay as they were. */
    method SetIndices(idx: seq<u32>)
      modifies this`indices
      ensures indices == idx
    {
      indices := idx;
    }

    /** Recomputes the bounds from the vertex list: zero for an empty list,
        otherwise the componentwise min and max of the positions, their
        midpoint, and the largest squared distance of a position from it. */
    method CalculateBounds()
      modifies this`minBounds, this`maxBounds, this`center, this`radiusSq
      ensures Valid()
    {
      if |vertices| == 0 {
        minBounds := Zero3;
        maxBounds := Zero3;
        center := Zero3;
        radiusSq := 0.0;
        return;
      }
      ghost var ps := Positions(vertices);
      // the first position stands for the +/- float-limit starting values
      var p0 := vertices[0].position;
      var minX, minY, minZ := p0.x, p0.y, p0.z;
      var maxX, maxY, maxZ := p0.x, p0.y, p0.z;
      var i := 0;
      while i < |vertices|
        invariant 0 <= i <= |vertices|
        invariant Vec3(minX, minY, minZ) == MinCorner(ps[..if i == 0 then 1 else i])
        invariant Vec3(maxX, maxY, maxZ) == MaxCorner(ps[..if i == 0 then 1 else i])
      {
        var p := vertices[i].position;
        minX := Min(minX, p.x);
        minY := Min(minY, p.y);
        minZ := Min(minZ, p.z);
        maxX := Max(maxX, p.x);
        maxY := Max(maxY, p.y);
        maxZ := Max(maxZ, p.z);
        if i > 0 {
          assert ps[..i + 1][..i] == ps[..i];
        }
        i := i + 1;
      }
      assert ps[..i] == ps;
      minBounds := Vec3(minX, minY, minZ);
      maxBounds := Vec3(maxX, maxY, maxZ);
      center := Mid(minBounds, maxBounds);

      var maxDistSq := 0.0;
      i := 0;
      while i < |vertices|
        invariant 0 <= i <= |vertices|
        invariant maxDistSq == MaxDistSq(ps[..i], center)
      {
        var distSq := DistSq(vertices[i].position, center);
        if distSq > maxDistSq {
          maxDistSq := distSq;
        }
        assert ps[..i + 1][..i] == ps[..i];
        i := i + 1;
      }
      assert ps[..i] == ps;
      radiusSq := maxDistSq;
    }

    /** Applies `m` to every vertex in place (see TransformedVertex) and
        re-derives the bounds. Indices, textures and material are untouched. */
    method Transform(m: Mat4, normalize: Vec3 -> Vec3)
      modifies this`vertices, this`minBounds, this`maxBounds, this`center, this`radiusSq
      ensures |vertices| == |old(vertices)|
      ensures forall i :: 0 <= i < |vertices| ==> vertices[i] == TransformedVertex(m, normalize, old(vertices[i]))
      ensures Valid()
    {
      var i := 0;
      while i < |vertices|
        invariant 0 <= i <= |vertices| == |old(vertices)|
        invariant forall k :: 0 <= k < i ==> vertices[k] == TransformedVertex(m, normalize, old(vertices[k]))
        invariant forall k :: i <= k < |vertices| ==> vertices[k] == old(vertices[k])
      {
        var v := vertices[i];
        v := v.(position := TransformPoint(m, v.position));
        v := v.(normal := normalize(TransformDirection(m, v.normal)));
        vertices := vertices[i := v];
        i := i + 1;
      }
      CalculateBounds();
    }

    /** Empties the texture list and nothing else. */
    method ClearTextures()
      modifies this`textures
      ensures textures == []
    {
      textures := [];
    }

    /** `getBounds()`: the min and max corner, which on a consistent
        non-empty mesh enclose every vertex position. */
    function GetBounds(): (r: (Vec3, Vec3))
      reads this
      ensures r.0 == minBounds && r.1 == maxBounds
      ensures Valid() && |vertices| > 0 ==>
        forall i :: 0 <= i < |vertices| ==> LeV(r.0, vertices[i].position) && LeV(vertices[i].position, r.1)
    {
      if |vertices| > 0 then
        BoundsOfEncloses(vertices);
        (minBounds, maxBounds)
      else
        (minBounds, maxBounds)
    }

    /** A mesh is empty when it has no vertices; a consistent empty mesh has
        all-zero bounds, so callers must test emptiness before trusting them. */
    predicate IsEmpty()
      reads this
      ensures IsEmpty() <==> vertices == []
      ensures IsEmpty() && Valid() ==> minBounds == maxBounds == center == Zero3 && radiusSq == 0.0
    {
      |vertices| == 0
    }

    /** Bytes held by the vertex and index arrays. */
    function GetMemoryUsage(): (r: nat)
      reads this
      ensures r == VertexSize * |vertices| + IndexSize * |indices|
      ensures r == 0 <==> vertices == [] && indices == []
    {
      |vertices| * VertexSize + |indices| * IndexSize
    }
  }
}
