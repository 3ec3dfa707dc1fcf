/**
 * The grass renderer component: it keeps the instance buffer and the
 * indirect-args buffer of one instanced indirect draw up to date with the
 * instance count, the pivot and the scale, regenerating both only when that
 * fingerprint changes, and it builds the blade mesh once.
 *
 * The engine's transform (position and local scale) is read each frame; here
 * it is passed to the methods as `pivot` and `scale`.
 */
module GrassRenderer {
  import opened Wrappers
  import opened UnityMath
  import opened UnityRandom
  import opened UnityGraphics
  import opened GrassMesh
  import opened IndirectArgs
  import opened GrassPlacement

  /** Bytes of one instance record (float4). */
  const PositionStride: nat := 16

  /** The args buffer: one element of 5 words. */
  const ArgsCount: nat := 1
  const ArgsStride: nat := 20

  /** Releasing the buffer held in a slot, if any, and allocating its replacement. */
  function ReplaceEvents(old_: object?, new_: object, count: nat, stride: nat): seq<GpuEvent>
  {
    ReleaseIfHeld(old_) + [Allocated(new_, count, stride)]
  }

  /** Uploading the instances and binding them, the pivot and the bound size on the grass material. */
  function UploadPositionEvents(buffer: object, pivot: Vec3, scale: Vec3): seq<GpuEvent>
  {
    [ Uploaded(buffer),
      BoundBuffer(TransformBuffer, buffer),
      BoundVector(PivotPosWS, Widen3(pivot)),
      BoundVector(BoundSize, Vec4(scale.x, scale.z, 0.0, 0.0)) ]
  }

  /**
   * The effects of one regeneration, in order: replace the args buffer,
   * replace the instance buffer, upload and bind the instances, then upload
   * the args.
   */
  function RegenerationEvents(oldArgs: object?, newArgs: object, oldPositions: object?, newPositions: object,
                              n: nat, pivot: Vec3, scale: Vec3): seq<GpuEvent>
  {
    ReplaceEvents(oldArgs, newArgs, ArgsCount, ArgsStride)
    + ReplaceEvents(oldPositions, newPositions, n, PositionStride)
    + UploadPositionEvents(newPositions, pivot, scale)
    + [Uploaded(newArgs)]
  }

  /**
   * Reseeds the generator and fills the instance array in index order: for
   * each slot, an x and a z offset in the volume about the pivot and a size.
   */
  method GeneratePositions(random: Random, n: nat, pivot: Vec3, scale: Vec3) returns (positions: array<Vec4>)
    modifies random`seed, random`draws
    ensures fresh(positions)
    ensures positions[..] == Blades(random.oracle, n, pivot, scale)
    ensures random.seed == GrassSeed && random.draws == 3 * n
  {
    positions := new Vec4[n];

    random.InitState(GrassSeed);

    var i := 0;
    while i < positions.Length
      invariant 0 <= i <= positions.Length
      invariant random.seed == GrassSeed && random.draws == 3 * i
      invariant forall j :: 0 <= j < i ==> positions[j] == Blade(random.oracle, j, pivot, scale)
      modifies positions, random`seed, random`draws
    {
      var pos := Zero3;
      var dx := random.Range(-1.0, 1.0);
      pos := pos.(x := pos.x + dx * scale.x);
      var dz := random.Range(-1.0, 1.0);
      pos := pos.(z := pos.z + dz * scale.z);

      pos := Add(pos, pivot);

      var size := random.Range(2.0, 5.0);

      positions[i] := Vec4(pos.x, pos.y, pos.z, size);
      i := i + 1;
    }
  }

  /** The inspector's bounds on the instance count. */
  const MinInstanceCount: int := 1
  const MaxInstanceCount: int := 100000

  /**
   * The count the on-screen slider sets: the slider reads whole tens of
   * thousands from its position in [0, 10] (C#'s `(int)` truncates), and the
   * count never drops below 1.
   */
  function SliderInstanceCount(slider: real): (r: int32)
    requires 0.0 <= slider <= 10.0
    ensures MinInstanceCount <= r as int <= MaxInstanceCount
    ensures r == 1 <==> slider < 1.0
    ensures slider >= 1.0 ==> r as int % 10000 == 0 && r as real <= slider * 10000.0 < r as real + 10000.0
  {
    var steps := slider.Floor;
    if steps * 10000 < 1 then 1 else (steps * 10000) as int32
  }

  class InstancedIndirectGrassRenderer {
    /** The instance count the user asks for (an inspector field, set by the UI). */
    var instanceCount: int32

    /** The engine's global generator. */
    const random: Random

    // The fingerprint of the buffers' contents. None stands for the
    // negative-infinity vector, which no transform value equals.
    var cachedInstanceCount: int32
    var cachedPivotPos: Option<Vec3>
    var cachedLocalScale: Option<Vec3>
    var cachedGrassMesh: Mesh?

    var positionBuffer: ComputeBuffer?<Vec4>
    var argsBuffer: ComputeBuffer?<uint32>

    /** Every buffer this renderer has allocated. */
    ghost var positionBuffers: set<ComputeBuffer<Vec4>>
    ghost var argsBuffers: set<ComputeBuffer<uint32>>
    /** The effects on the rendering subsystem so far. */
    ghost var trace: seq<GpuEvent>

    /** The buffers hold what the fingerprint says they were generated from. */
    ghost predicate BuffersMatchFingerprint()
      reads this, positionBuffer, argsBuffer
      requires positionBuffer != null && argsBuffer != null
    {
      && cachedInstanceCount >= 1
      && cachedPivotPos.Some? && cachedLocalScale.Some?
      && positionBuffer.count == cachedInstanceCount as int && positionBuffer.stride == PositionStride
      && argsBuffer.count == ArgsCount && argsBuffer.stride == ArgsStride
      && positionBuffer.data == Blades(random.oracle, cachedInstanceCount as nat, cachedPivotPos.value, cachedLocalScale.value)
      && argsBuffer.data == Pack(GrassDrawArgs(cachedInstanceCount))
    }

    /** The mesh cache is empty or holds the blade. */
    ghost predicate MeshValid()
      reads this`cachedGrassMesh, cachedGrassMesh
    {
      cachedGrassMesh != null ==> IsBladeMesh(cachedGrassMesh)
    }

    /** The component's invariant between engine callbacks. */
    ghost predicate Valid()
      reads this, positionBuffers, argsBuffers, positionBuffer, argsBuffer, cachedGrassMesh
    {
      && (positionBuffer != null ==> positionBuffer in positionBuffers)
      && (argsBuffer != null ==> argsBuffer in argsBuffers)
      // no leak: a buffer this renderer allocated is live exactly while it is held
      && (forall b :: b in positionBuffers ==> (b.released <==> b != positionBuffer))
      && (forall b :: b in argsBuffers ==> (b.released <==> b != argsBuffer))
      && ((positionBuffer == null) <==> (argsBuffer == null))
      && (positionBuffer != null && argsBuffer != null ==> BuffersMatchFingerprint())
      // the args were packed from the mesh, so held buffers imply a built mesh
      && (argsBuffer != null ==> cachedGrassMesh != null)
      && MeshValid()
    }

    /** The early-exit test: the fingerprint equals the inputs and both buffers exist. */
    predicate IsUpToDate(pivot: Vec3, scale: Vec3)
      reads this
    {
      && cachedInstanceCount == instanceCount
      && cachedPivotPos == Some(pivot)
      && cachedLocalScale == Some(scale)
      && argsBuffer != null
      && positionBuffer != null
    }

    /** A fresh component: default count 20000, sentinel fingerprint, no mesh, no buffers. */
    constructor (random: Random)
      ensures Valid()
      ensures this.random == random && instanceCount == 20000
      ensures cachedInstanceCount == -1 && cachedPivotPos == None && cachedLocalScale == None
      ensures cachedGrassMesh == null && positionBuffer == null && argsBuffer == null
      ensures positionBuffers == {} && argsBuffers == {} && trace == []
    {
      this.random := random;
      instanceCount := 20000;
      cachedInstanceCount := -1;
      cachedPivotPos := None;
      cachedLocalScale := None;
      cachedGrassMesh := null;
      positionBuffer := null;
      argsBuffer := null;
      positionBuffers := {};
      argsBuffers := {};
      trace := [];
    }

    /** One frame: bring the buffers up to date, then draw the blade mesh with the args buffer. */
    method LateUpdate(pivot: Vec3, scale: Vec3) returns (mesh: Mesh, args: ComputeBuffer<uint32>)
      requires Valid()
      requires instanceCount >= 1
      modifies this, random, positionBuffer, argsBuffer
      ensures Valid() && IsUpToDate(pivot, scale)
      ensures instanceCount == old(instanceCount)
      ensures mesh == cachedGrassMesh && IsBladeMesh(mesh)
      ensures args == argsBuffer && !args.released && args.data == Pack(GrassDrawArgs(instanceCount))
      ensures !positionBuffer.released
      ensures positionBuffer.data == Blades(random.oracle, instanceCount as nat, pivot, scale)
      // the frame ends with one instanced indirect draw of submesh 0, bounded by the transform
      ensures trace == old(trace)
                       + (if old(IsUpToDate(pivot, scale)) then []
                          else RegenerationEvents(old(argsBuffer), args, old(positionBuffer), positionBuffer,
                                                  instanceCount as nat, pivot, scale))
                       + [DrewIndirect(mesh, 0, pivot, scale, args)]
      ensures old(IsUpToDate(pivot, scale)) ==>
        positionBuffer == old(positionBuffer) && argsBuffer == old(argsBuffer) && mesh == old(cachedGrassMesh)
        && unchanged(random)
      ensures !old(IsUpToDate(pivot, scale)) ==>
        fresh(positionBuffer) && fresh(args)
        && RegeneratedFrom(old(positionBuffer), old(argsBuffer), old(positionBuffers), old(argsBuffers), pivot, scale)
    {
      UpdateBuffersIfNeeded(pivot, scale);
      mesh := GetGrassMeshCache();
      args := argsBuffer;
      trace := trace + [DrewIndirect(mesh, 0, pivot, scale, args)];
    }

    /** The UI pass: the slider's position in [0, 10] sets the instance count for the next frame. */
    method OnGUI(slider: real)
      requires 0.0 <= slider <= 10.0
      modifies this`instanceCount
      ensures instanceCount == SliderInstanceCount(slider)
    {
      instanceCount := SliderInstanceCount(slider);
    }

    /** Releases whichever buffers are held and forgets them. */
    method OnDisable()
      requires Valid()
      modifies this`positionBuffer, this`argsBuffer, this`trace, positionBuffer, argsBuffer
      ensures Valid()
      ensures positionBuffer == null && argsBuffer == null
      ensures old(positionBuffer) != null ==> old(positionBuffer).released
      ensures old(argsBuffer) != null ==> old(argsBuffer).released
      ensures trace == old(trace) + ReleaseIfHeld(old(positionBuffer)) + ReleaseIfHeld(old(argsBuffer))
    {
      if positionBuffer != null {
        positionBuffer.Release();
        trace := trace + [Released(positionBuffer)];
      }
      positionBuffer := null;

      if argsBuffer != null {
        argsBuffer.Release();
        trace := trace + [Released(argsBuffer)];
      }
      argsBuffer := null;
    }

    /** The blade mesh, built on the first call and handed back unchanged afterwards. */
    method GetGrassMeshCache() returns (mesh: Mesh)
      requires MeshValid()
      modifies this`cachedGrassMesh
      ensures MeshValid()
      ensures mesh == cachedGrassMesh && IsBladeMesh(mesh)
      ensures old(cachedGrassMesh) != null ==> mesh == old(cachedGrassMesh)
      ensures old(cachedGrassMesh) == null ==> fresh(mesh)
    {
      if cachedGrassMesh == null {
        cachedGrassMesh := new Mesh();

        var verts := new Vec3[3];
        verts[0] := Vec3(-0.25, 0.0, 0.0);
        verts[1] := Vec3(0.25, 0.0, 0.0);
        verts[2] := Vec3(-0.0, 1.0, 0.0);
        var triangles := new int[3] [2, 1, 0];

        cachedGrassMesh.SetVertices(verts[..]);
        cachedGrassMesh.SetTriangles(triangles[..]);
      }
      mesh := cachedGrassMesh;
    }

    /** Releases the held args buffer, if any, and holds a fresh one of one element of five words. */
    method ReplaceArgsBuffer()
      requires argsBuffer != null ==> argsBuffer in argsBuffers
      requires forall b :: b in argsBuffers ==> (b.released <==> b != argsBuffer)
      modifies this`argsBuffer, this`argsBuffers, this`trace, argsBuffer
      ensures fresh(argsBuffer) && !argsBuffer.released && argsBuffer.data == []
      ensures argsBuffer.count == ArgsCount && argsBuffer.stride == ArgsStride
      ensures forall b :: b in old(argsBuffers) ==> b.released
      ensures argsBuffers == old(argsBuffers) + {argsBuffer}
      ensures trace == old(trace) + ReplaceEvents(old(argsBuffer), argsBuffer, ArgsCount, ArgsStride)
    {
      if argsBuffer != null {
        argsBuffer.Release();
        trace := trace + [Released(argsBuffer)];
      }
      argsBuffer := new ComputeBuffer(1, ArgsWords * WordBytes);
      argsBuffers := argsBuffers + {argsBuffer};
      trace := trace + [Allocated(argsBuffer, ArgsCount, ArgsStride)];
    }

    /** Releases the held instance buffer, if any, and holds a fresh one of `count` float4 records. */
    method ReplacePositionBuffer(count: nat)
      requires count > 0
      requires positionBuffer != null ==> positionBuffer in positionBuffers
      requires forall b :: b in positionBuffers ==> (b.released <==> b != positionBuffer)
      modifies this`positionBuffer, this`positionBuffers, this`trace, positionBuffer
      ensures fresh(positionBuffer) && !positionBuffer.released && positionBuffer.data == []
      ensures positionBuffer.count == count && positionBuffer.stride == PositionStride
      ensures forall b :: b in old(positionBuffers) ==> b.released
      ensures positionBuffers == old(positionBuffers) + {positionBuffer}
      ensures trace == old(trace) + ReplaceEvents(old(positionBuffer), positionBuffer, count, PositionStride)
    {
      if positionBuffer != null {
        positionBuffer.Release();
        trace := trace + [Released(positionBuffer)];
      }
      positionBuffer := new ComputeBuffer(count, PositionStride);
      positionBuffers := positionBuffers + {positionBuffer};
      trace := trace + [Allocated(positionBuffer, count, PositionStride)];
    }

    /** Generates the instances for the current count into `buffer` and binds them on the material. */
    method UploadPositions(buffer: ComputeBuffer<Vec4>, pivot: Vec3, scale: Vec3)
      requires !buffer.released && instanceCount >= 1
      modifies random`seed, random`draws, buffer`data, this`trace
      ensures buffer.data == Blades(random.oracle, instanceCount as nat, pivot, scale)
      ensures random.seed == GrassSeed && random.draws == 3 * instanceCount as int
      ensures trace == old(trace) + UploadPositionEvents(buffer, pivot, scale)
    {
      var positions := GeneratePositions(random, instanceCount as nat, pivot, scale);

      buffer.SetData(positions[..]);
      trace := trace + [Uploaded(buffer)];
      trace := trace + [BoundBuffer(TransformBuffer, buffer)];
      trace := trace + [BoundVector(PivotPosWS, Widen3(pivot))];
      trace := trace + [BoundVector(BoundSize, Vec4(scale.x, scale.z, 0.0, 0.0))];
    }

    /** The five args words for the current count, reading the index data of the blade mesh. */
    method PackArgs() returns (args: array<uint32>)
      requires MeshValid()
      modifies this`cachedGrassMesh
      ensures MeshValid() && cachedGrassMesh != null
      ensures old(cachedGrassMesh) != null ==> cachedGrassMesh == old(cachedGrassMesh)
      ensures fresh(args) && args[..] == Pack(GrassDrawArgs(instanceCount))
    {
      args := new uint32[ArgsWords] [0, 0, 0, 0, 0];
      var mesh := GetGrassMeshCache();
      args[0] := mesh.GetIndexCount();
      args[1] := UncheckedToUInt32(instanceCount);
      mesh := GetGrassMeshCache();
      args[2] := mesh.GetIndexStart();
      mesh := GetGrassMeshCache();
      args[3] := mesh.GetBaseVertex();
      args[4] := 0;
    }

    /** Packs the args for the current count and uploads them to `buffer`. */
    method UploadArgs(buffer: ComputeBuffer<uint32>)
      requires MeshValid() && !buffer.released
      modifies this`cachedGrassMesh, buffer`data, this`trace
      ensures MeshValid() && cachedGrassMesh != null
      ensures old(cachedGrassMesh) != null ==> cachedGrassMesh == old(cachedGrassMesh)
      ensures buffer.data == Pack(GrassDrawArgs(instanceCount))
      ensures trace == old(trace) + [Uploaded(buffer)]
    {
      var args := PackArgs();
      buffer.SetData(args[..]);
      trace := trace + [Uploaded(buffer)];
    }

    /**
     * Regenerates both buffers unless the fingerprint and the buffers are
     * current. Either way the buffers afterwards hold the instances and the
     * args for the current inputs.
     */
    method UpdateBuffersIfNeeded(pivot: Vec3, scale: Vec3)
      requires Valid()
      requires instanceCount >= 1
      modifies this, random, positionBuffer, argsBuffer
      ensures Valid() && IsUpToDate(pivot, scale)
      ensures instanceCount == old(instanceCount)
      ensures !positionBuffer.released && !argsBuffer.released
      ensures positionBuffer.data == Blades(random.oracle, instanceCount as nat, pivot, scale)
      ensures argsBuffer.data == Pack(GrassDrawArgs(instanceCount))
      ensures old(cachedGrassMesh) != null ==> cachedGrassMesh == old(cachedGrassMesh)
      // fast path: nothing changes, nothing is released or allocated
      ensures old(IsUpToDate(pivot, scale)) ==> unchanged(this, random) && unchanged(old(positionBuffer), old(argsBuffer))
      // regeneration: both buffers replaced by fresh ones, the old ones released
      ensures !old(IsUpToDate(pivot, scale)) ==> fresh(positionBuffer) && fresh(argsBuffer)
      ensures !old(IsUpToDate(pivot, scale)) ==> RegeneratedFrom(old(positionBuffer), old(argsBuffer), old(positionBuffers), old(argsBuffers), pivot, scale)
      ensures !old(IsUpToDate(pivot, scale)) ==>
        trace == old(trace) + RegenerationEvents(old(argsBuffer), argsBuffer, old(positionBuffer), positionBuffer,
                                                 instanceCount as nat, pivot, scale)
    {
      if IsUpToDate(pivot, scale) {
        return;
      }
      Regenerate(pivot, scale);
    }

    /** The new state after a regeneration from the given old buffers and sets. */
    ghost predicate RegeneratedFrom(oldPositions: ComputeBuffer?<Vec4>, oldArgs: ComputeBuffer?<uint32>,
                                    oldPositionBuffers: set<ComputeBuffer<Vec4>>, oldArgsBuffers: set<ComputeBuffer<uint32>>,
                                    pivot: Vec3, scale: Vec3)
      reads this, random, positionBuffer, argsBuffer, oldPositions, oldArgs
    {
      && positionBuffer != null && argsBuffer != null
      && positionBuffer.count == instanceCount as int && positionBuffer.stride == PositionStride
      && argsBuffer.count == ArgsCount && argsBuffer.stride == ArgsStride
      && (oldPositions != null ==> oldPositions.released)
      && (oldArgs != null ==> oldArgs.released)
      && positionBuffers == oldPositionBuffers + {positionBuffer}
      && argsBuffers == oldArgsBuffers + {argsBuffer}
      && random.seed == GrassSeed && random.draws == 3 * instanceCount as int
      && cachedGrassMesh != null
    }

    /** The regeneration branch of the update: both buffers replaced and refilled, the fingerprint recorded. */
    method Regenerate(pivot: Vec3, scale: Vec3)
      requires Valid()
      requires instanceCount >= 1
      modifies this, random, positionBuffer, argsBuffer
      ensures Valid() && IsUpToDate(pivot, scale)
      ensures instanceCount == old(instanceCount)
      ensures !positionBuffer.released && !argsBuffer.released
      ensures fresh(positionBuffer) && fresh(argsBuffer)
      ensures positionBuffer.data == Blades(random.oracle, instanceCount as nat, pivot, scale)
      ensures argsBuffer.data == Pack(GrassDrawArgs(instanceCount))
      ensures old(cachedGrassMesh) != null ==> cachedGrassMesh == old(cachedGrassMesh)
      ensures RegeneratedFrom(old(positionBuffer), old(argsBuffer), old(positionBuffers), old(argsBuffers), pivot, scale)
      ensures trace == old(trace) + RegenerationEvents(old(argsBuffer), argsBuffer, old(positionBuffer), positionBuffer,
                                                       instanceCount as nat, pivot, scale)
    {
      ReplaceBuffers();
      Refill(positionBuffer, argsBuffer, pivot, scale);
    }

    /** Both buffers released if held and replaced by fresh, empty ones. */
    method ReplaceBuffers()
      requires Valid()
      requires instanceCount >= 1
      modifies this`argsBuffer, this`argsBuffers, this`positionBuffer, this`positionBuffers, this`trace,
               argsBuffer, positionBuffer
      ensures fresh(positionBuffer) && !positionBuffer.released && positionBuffer.data == []
      ensures positionBuffer.count == instanceCount as int && positionBuffer.stride == PositionStride
      ensures fresh(argsBuffer) && !argsBuffer.released && argsBuffer.data == []
      ensures argsBuffer.count == ArgsCount && argsBuffer.stride == ArgsStride
      ensures forall b :: b in old(positionBuffers) ==> b.released
      ensures forall b :: b in old(argsBuffers) ==> b.released
      ensures positionBuffers == old(positionBuffers) + {positionBuffer}
      ensures argsBuffers == old(argsBuffers) + {argsBuffer}
      ensures forall b :: b in positionBuffers ==> (b.released <==> b != positionBuffer)
      ensures forall b :: b in argsBuffers ==> (b.released <==> b != argsBuffer)
      ensures trace == old(trace) + ReplaceEvents(old(argsBuffer), argsBuffer, ArgsCount, ArgsStride)
                                  + ReplaceEvents(old(positionBuffer), positionBuffer, instanceCount as nat, PositionStride)
    {
      ReplaceArgsBuffer();
      ReplacePositionBuffer(instanceCount as nat);
    }

    /** The fresh buffers filled for the current inputs and the fingerprint recorded. */
    method Refill(positions: ComputeBuffer<Vec4>, args: ComputeBuffer<uint32>, pivot: Vec3, scale: Vec3)
      requires !positions.released && !args.released && instanceCount >= 1
      requires MeshValid()
      modifies random`seed, random`draws, positions`data, args`data, this`trace, this`cachedGrassMesh,
               this`cachedInstanceCount, this`cachedPivotPos, this`cachedLocalScale
      ensures MeshValid() && cachedGrassMesh != null
      ensures old(cachedGrassMesh) != null ==> cachedGrassMesh == old(cachedGrassMesh)
      ensures positions.data == Blades(random.oracle, instanceCount as nat, pivot, scale)
      ensures args.data == Pack(GrassDrawArgs(instanceCount))
      ensures random.seed == GrassSeed && random.draws == 3 * instanceCount as int
      ensures trace == old(trace) + UploadPositionEvents(positions, pivot, scale) + [Uploaded(args)]
      ensures cachedInstanceCount == instanceCount && cachedPivotPos == Some(pivot) && cachedLocalScale == Some(scale)
    {
      UploadPositions(positions, pivot, scale);
      UploadArgs(args);

      cachedInstanceCount := instanceCount;
      cachedPivotPos := Some(pivot);
      cachedLocalScale := Some(scale);
    }
  }
}
