/** Vector and vertex types shared by the renderer: the glm value types the
    mesh code uses, with `real` coordinates in place of `float`, and the
    `Vertex` record of Vertex.h. */
module Geometry {

  /** An `unsigned int` (index values, OpenGL object names). */
  newtype u32 = x: int | 0 <= x < 0x1_0000_0000

  datatype Vec2 = Vec2(x: real, y: real)
  datatype Vec3 = Vec3(x: real, y: real, z: real)
  datatype Vec4 = Vec4(x: real, y: real, z: real, w: real)

  /** A 4x4 matrix given by its rows, so that `m * v` is row-by-vector dot products. */
  datatype Mat4 = Mat4(r0: Vec4, r1: Vec4, r2: Vec4, r3: Vec4)

  const Zero3 := Vec3(0.0, 0.0, 0.0)

  /** One geometric sample. The skinning fields `boneIDs` and `boneWeights`
      of the record are never written by this code and are left out of the
      datatype; they still count towards `VertexSize`. */
  datatype Vertex = Vertex(position: Vec3, normal: Vec3, texCoords: Vec2, tangent: Vec3, bitangent: Vec3)

  /** sizeof(Vertex): five float vectors (12+12+8+12+12) plus ivec4 and vec4 (16+16). */
  const VertexSize: nat := 88
  /** sizeof(unsigned int). */
  const IndexSize: nat := 4

  function Min(a: real, b: real): real { if b < a then b else a }
  function Max(a: real, b: real): real { if a < b then b else a }

  /** Componentwise minimum and maximum. */
  function MinV(a: Vec3, b: Vec3): Vec3 { Vec3(Min(a.x, b.x), Min(a.y, b.y), Min(a.z, b.z)) }
  function MaxV(a: Vec3, b: Vec3): Vec3 { Vec3(Max(a.x, b.x), Max(a.y, b.y), Max(a.z, b.z)) }

  /** `a <= b` in every component. */
  predicate LeV(a: Vec3, b: Vec3) { a.x <= b.x && a.y <= b.y && a.z <= b.z }

  /** `a + t`. */
  function Add(a: Vec3, t: Vec3): Vec3 { Vec3(a.x + t.x, a.y + t.y, a.z + t.z) }

  /** `(a + b) * 0.5`. */
  function Mid(a: Vec3, b: Vec3): Vec3 { Vec3((a.x + b.x) / 2.0, (a.y + b.y) / 2.0, (a.z + b.z) / 2.0) }

  function Sq(a: real): (r: real)
    ensures r >= 0.0
  {
    a * a
  }

  /** `dot(p - c, p - c)`. */
  function DistSq(p: Vec3, c: Vec3): (r: real)
    ensures r >= 0.0
  {
    Sq(p.x - c.x) + Sq(p.y - c.y) + Sq(p.z - c.z)
  }

  function Dot4(r: Vec4, v: Vec4): real { r.x * v.x + r.y * v.y + r.z * v.z + r.w * v.w }

  function MulVec(m: Mat4, v: Vec4): Vec4 {
    Vec4(Dot4(m.r0, v), Dot4(m.r1, v), Dot4(m.r2, v), Dot4(m.r3, v))
  }

  /** `vec3(m * vec4(p, 1))`: the w component is dropped, not divided by. */
  function TransformPoint(m: Mat4, p: Vec3): Vec3 {
    var v := MulVec(m, Vec4(p.x, p.y, p.z, 1.0));
    Vec3(v.x, v.y, v.z)
  }

  /** `vec3(m * vec4(n, 0))`: a direction, so the translation column has no effect. */
  function TransformDirection(m: Mat4, n: Vec3): Vec3 {
    var v := MulVec(m, Vec4(n.x, n.y, n.z, 0.0));
    Vec3(v.x, v.y, v.z)
  }

  /** A matrix whose last column is the translation `t` and whose linear part is the identity. */
  function Translation(t: Vec3): Mat4 {
    Mat4(Vec4(1.0, 0.0, 0.0, t.x), Vec4(0.0, 1.0, 0.0, t.y), Vec4(0.0, 0.0, 1.0, t.z), Vec4(0.0, 0.0, 0.0, 1.0))
  }
}
