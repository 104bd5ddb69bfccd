/**
 * The append-only vertex buffer used to build meshes, and the mesh handle it
 * uploads to. Vertices are opaque: the builder never looks inside one.
 */
module Rendering {

  /** `usize as u32` keeps the value modulo 2^32. */
  const U32Modulus := 0x1_0000_0000

  /**
   * The six vertices that draw a quad as two triangles: (0, 1, 2) and
   * (0, 2, 3), sharing the diagonal from corner 0 to corner 2.
   */
  function Triangulate<V>(vs: seq<V>): (r: seq<V>)
    requires |vs| >= 4
    ensures |r| == 6
    ensures r[0] == r[3] == vs[0] && r[2] == r[4] == vs[2]
  {
    [vs[0], vs[1], vs[2], vs[0], vs[2], vs[3]]
  }

  /** The two triangles use exactly the quad's four corners: nothing else, and none left out. */
  lemma TriangulateCovers<V>(vs: seq<V>)
    requires |vs| >= 4
    ensures forall k :: 0 <= k < 6 ==> Triangulate(vs)[k] in vs[..4]
    ensures forall j :: 0 <= j < 4 ==> vs[j] in Triangulate(vs)
  {
  }

  /** Only the first four input vertices matter. */
  lemma TriangulateIgnoresTail<V>(vs: seq<V>)
    requires |vs| >= 4
    ensures Triangulate(vs) == Triangulate(vs[..4])
  {
  }

  /** A GL vertex buffer object and the number of vertices to draw from it. */
  class Mesh<V> {
    var vbo: nat
    var count: nat
    /** The vertex data held by the buffer object. */
    ghost var data: seq<V>

    /** `vbo` is the handle the GL context hands out for a new buffer. */
    constructor (vbo: nat)
      ensures this.vbo == vbo && count == 0 && data == []
    {
      this.vbo := vbo;
      count := 0;
      data := [];
    }
  }

  class MeshBuilder<V> {
    var verts: seq<V>

    constructor ()
      ensures verts == []
    {
      verts := [];
    }

    /**
     * Sets the mesh's vertex count (truncated to 32 bits) and hands the
     * builder's vertices to its buffer; the builder itself is not changed.
     */
    method UploadTo(mesh: Mesh<V>)
      modifies mesh
      ensures mesh.count == |verts| % U32Modulus
      ensures mesh.data == verts && mesh.vbo == old(mesh.vbo)
      ensures verts == old(verts)
    {
      mesh.count := |verts| % U32Modulus;
      mesh.data := verts;
    }

    method AddVert(v: V)
      modifies this
      ensures verts == old(verts) + [v]
    {
      verts := verts + [v];
    }

    /** Appends the quad `vs[0..4]` as two triangles; fewer than four vertices is a failed assertion. */
    method AddQuad(vs: seq<V>)
      requires |vs| >= 4
      modifies this
      ensures verts == old(verts) + Triangulate(vs)
    {
      verts := verts + [vs[0]];
      verts := verts + [vs[1]];
      verts := verts + [vs[2]];

      verts := verts + [vs[0]];
      verts := verts + [vs[2]];
      verts := verts + [vs[3]];
    }
  }
}
