/**
 * The engine's graphics objects the grass renderer owns: a mesh with one
 * submesh, and GPU compute buffers that can be filled and released. The
 * uploads and bindings the renderer performs are recorded as `GpuEvent`s.
 */
module UnityGraphics {
  import opened UnityMath

  /** The longest array C# can allocate. */
  const MaxArrayLength: int := 0x8000_0000

  /** A mesh with a single submesh (submesh 0). */
  class Mesh {
    var vertices: seq<Vec3>
    var triangles: seq<int>
    var indexStart: uint32
    var baseVertex: uint32

    ghost predicate Valid()
      reads this
    {
      && |vertices| < MaxArrayLength
      && |triangles| < MaxArrayLength
      && forall k :: 0 <= k < |triangles| ==> 0 <= triangles[k] < |vertices|
    }

    /** `new Mesh()`: an empty mesh. */
    constructor ()
      ensures Valid()
      ensures vertices == [] && triangles == [] && indexStart == 0 && baseVertex == 0
    {
      vertices := [];
      triangles := [];
      indexStart := 0;
      baseVertex := 0;
    }

    /** `SetVertices`: replaces the vertex list; indices already set must stay in range. */
    method SetVertices(verts: seq<Vec3>)
      requires Valid()
      requires |verts| < MaxArrayLength
      requires forall k :: 0 <= k < |triangles| ==> triangles[k] < |verts|
      modifies this
      ensures Valid()
      ensures vertices == verts
      ensures triangles == old(triangles) && indexStart == old(indexStart) && baseVertex == old(baseVertex)
    {
      vertices := verts;
    }

    /**
     * `SetTriangles(tris, 0)`: replaces the index list of submesh 0, which then
     * starts at index 0 with base vertex 0. The engine rejects a list that is
     * not whole triangles or refers to a vertex the mesh does not have.
     */
    method SetTriangles(tris: seq<int>)
      requires Valid()
      requires |tris| < MaxArrayLength && |tris| % 3 == 0
      requires forall k :: 0 <= k < |tris| ==> 0 <= tris[k] < |vertices|
      modifies this
      ensures Valid()
      ensures triangles == tris && indexStart == 0 && baseVertex == 0
      ensures vertices == old(vertices)
    {
      triangles := tris;
      indexStart := 0;
      baseVertex := 0;
    }

    /** `GetIndexCount(0)`. */
    function GetIndexCount(): uint32
      requires Valid()
      reads this
    {
      |triangles| as uint32
    }

    /** `GetIndexStart(0)`. */
    function GetIndexStart(): uint32
      reads this
    {
      indexStart
    }

    /** `GetBaseVertex(0)`. */
    function GetBaseVertex(): uint32
      reads this
    {
      baseVertex
    }
  }

  /**
   * A GPU buffer of `count` elements of `stride` bytes. `data` is what was last
   * uploaded with `SetData` (empty before the first upload); a released buffer
   * is no longer valid and may not be written.
   */
  class ComputeBuffer<T> {
    const count: nat
    const stride: nat
    var data: seq<T>
    var released: bool

    /** `new ComputeBuffer(count, stride)`: the engine demands a positive count and a stride that is a positive multiple of 4, at most 2048. */
    constructor (count: int, stride: int)
      requires count > 0
      requires 0 < stride <= 2048 && stride % 4 == 0
      ensures this.count == count && this.stride == stride
      ensures data == [] && !released
    {
      this.count := count;
      this.stride := stride;
      data := [];
      released := false;
    }

    /** `SetData(d)`: uploads `d` to a live buffer. */
    method SetData(d: seq<T>)
      requires !released
      modifies this`data
      ensures data == d && !released
    {
      data := d;
    }

    /** `Release()`: frees the GPU memory; releasing twice is harmless. */
    method Release()
      modifies this`released
      ensures released && data == old(data)
    {
      released := true;
    }
  }

  /** The material properties of the grass shader that the renderer sets. */
  datatype ShaderProperty = TransformBuffer | PivotPosWS | BoundSize

  /** The property's name in the shader source. */
  function PropertyName(p: ShaderProperty): string {
    match p
    case TransformBuffer => "_TransformBuffer"
    case PivotPosWS => "_PivotPosWS"
    case BoundSize => "_BoundSize"
  }

  /** An effect on the rendering subsystem, in the order the renderer causes them. */
  datatype GpuEvent =
    | Allocated(buffer: object, count: nat, stride: nat)
    | Released(buffer: object)
    | Uploaded(buffer: object)
    | BoundBuffer(property: ShaderProperty, buffer: object)
    | BoundVector(property: ShaderProperty, value: Vec4)
    | DrewIndirect(mesh: object, submesh: nat, boundsCenter: Vec3, boundsSize: Vec3, args: object)

  /** The release a guarded `if (b != null) b.Release();` performs. */
  function ReleaseIfHeld(b: object?): seq<GpuEvent> {
    if b == null then [] else [Released(b)]
  }
}
