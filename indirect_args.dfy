/**
 * The argument record of an instanced indirect draw: five unsigned 32-bit
 * words in the host API's fixed order.
 */
module IndirectArgs {
  import opened Wrappers
  import opened UnityMath
  import opened GrassMesh

  const ArgsWords: nat := 5

  /** The bytes one args word takes. */
  const WordBytes: nat := 4

  datatype DrawArgs = DrawArgs(
    indexCountPerInstance: uint32,
    instanceCount: uint32,
    startIndexLocation: uint32,
    baseVertexLocation: uint32,
    startInstanceLocation: uint32)

  /** The words as the renderer writes them into the args array, slots 0 to 4. */
  function Pack(a: DrawArgs): seq<uint32> {
    [a.indexCountPerInstance, a.instanceCount, a.startIndexLocation, a.baseVertexLocation, a.startInstanceLocation]
  }

  /** The record the draw call reads back from a words buffer; only 5 words form one. */
  function Unpack(w: seq<uint32>): (r: Option<DrawArgs>)
    ensures r.Some? <==> |w| == ArgsWords
    ensures r.Some? ==> Pack(r.value) == w
  {
    if |w| == ArgsWords then Some(DrawArgs(w[0], w[1], w[2], w[3], w[4])) else None
  }

  /** The layout is lossless: the draw call reads back what was packed. */
  lemma UnpackPack(a: DrawArgs)
    ensures Unpack(Pack(a)) == Some(a)
  {
  }

  /**
   * The args for drawing `n` grass instances: all indices of the blade's one
   * submesh from its start, `n` instances (the unchecked `(uint)` of C#),
   * starting at instance 0.
   */
  function GrassDrawArgs(n: int32): DrawArgs {
    DrawArgs(|BladeTriangles| as uint32, UncheckedToUInt32(n), 0, 0, 0)
  }

  /** For a positive count the args words are exactly [3, n, 0, 0, 0]. */
  lemma GrassDrawArgsLayout(n: int32)
    requires n >= 1
    ensures |Pack(GrassDrawArgs(n))| == ArgsWords
    ensures Pack(GrassDrawArgs(n)) == [3, n as int as uint32, 0, 0, 0]
    ensures Unpack(Pack(GrassDrawArgs(n))) == Some(DrawArgs(3, n as int as uint32, 0, 0, 0))
  {
  }
}
