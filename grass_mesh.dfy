/**
 * The single grass blade every instance draws: a triangle of 3 vertices whose
 * index order (2, 1, 0) is what the grass shader's back-face culling expects.
 */
module GrassMesh {
  import opened UnityMath
  import opened UnityGraphics

  /** The blade's local-space corners: left and right of the root, and the tip. */
  const BladeVertices: seq<Vec3> := [Vec3(-0.25, 0.0, 0.0), Vec3(0.25, 0.0, 0.0), Vec3(-0.0, 1.0, 0.0)]

  /** The blade's one triangle. */
  const BladeTriangles: seq<int> := [2, 1, 0]

  /** The mesh holds exactly the blade: its vertices, its triangle, submesh 0 at the start. */
  ghost predicate IsBladeMesh(m: Mesh)
    reads m
  {
    && m.Valid()
    && m.vertices == BladeVertices
    && m.triangles == BladeTriangles
    && m.indexStart == 0
    && m.baseVertex == 0
  }

  /**
   * Twice the signed area of the triangle (a, b, c) projected on the xy-plane;
   * negative when the corners run clockwise as seen from negative z.
   */
  function SignedArea2(a: Vec3, b: Vec3, c: Vec3): real {
    (b.x - a.x) * (c.y - a.y) - (b.y - a.y) * (c.x - a.x)
  }

  /**
   * The blade's triangle is well formed (every index names a vertex) and its
   * corners, taken in index order, run clockwise seen from negative z, the
   * engine's front-face winding, so back-face culling keeps the side facing -z.
   */
  lemma BladeWinding()
    ensures |BladeTriangles| == 3 && |BladeVertices| == 3
    ensures forall k :: 0 <= k < 3 ==> 0 <= BladeTriangles[k] < |BladeVertices|
    ensures SignedArea2(BladeVertices[BladeTriangles[0]], BladeVertices[BladeTriangles[1]],
                        BladeVertices[BladeTriangles[2]]) < 0.0
    ensures SignedArea2(BladeVertices[0], BladeVertices[1], BladeVertices[2]) > 0.0
  {
  }
}
