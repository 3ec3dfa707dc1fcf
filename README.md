# Instanced indirect grass renderer: a verified model

This project models `InstancedIndirectGrassRenderer`, the component that draws a
field of grass with a single instanced indirect draw. The component keeps two
GPU buffers:

- an instance buffer of float4 records: one position and blade size per instance;
- a one-element indirect-args buffer of five unsigned words.

It regenerates both buffers only when its fingerprint changes. The fingerprint
is the instance count, the transform position (the pivot) and the transform's
local scale. A regeneration does the following:

- it releases each superseded buffer before replacing it;
- it reseeds the engine's generator with 123, so the placement is reproducible;
- it scatters the blades uniformly in the box about the pivot, in index order;
- it binds the buffer and the volume on the grass material;
- it packs the draw args from the blade mesh.

The blade mesh is a single triangle built once and then cached. Disabling the
component releases whatever it holds. Each frame (`LateUpdate`) brings the
buffers up to date and then issues one draw.

Modules, one per concern:

- `UnityMath`: vectors as exact reals, C#'s `int`/`uint` and the unchecked `(uint)` cast.
- `UnityRandom`: the engine generator, given as an oracle of (seed, draw index, range).
- `UnityGraphics`: `Mesh` with submesh 0, `ComputeBuffer<T>`, and the log of GPU effects (`GpuEvent`).
- `GrassMesh`: the blade geometry.
- `IndirectArgs`: the five-word args record.
- `GrassPlacement`: the specification of the instance array (`Blades`) and its properties.
- `GrassRenderer`: the component as a class, whose methods update its fields in place. Ghost state records every buffer it allocated and the ordered effects it caused.
- `GrassScenarios`: frame sequences as the engine drives them.

The class invariant `Valid()` includes a no-leak property: a buffer the
component allocated is live exactly while it is the one held. It also says
that held buffers contain what the fingerprint says they were generated from.

The engine's inputs are method parameters: the transform position and scale,
the slider position in `OnGUI`, and the generator's oracle.

The source file is `Assets/URPMobileGrassInstancedIndirectDemo/InstancedIndirectGrass/Core/InstancedIndirectGrassRenderer.cs`. Below, R.cs stands for that file.

## Model

| member | source | states |
|---|---|---|
| GrassRenderer.InstancedIndirectGrassRenderer.UpdateBuffersIfNeeded | Assets/URPMobileGrassInstancedIndirectDemo/InstancedIndirectGrass/Core/InstancedIndirectGrassRenderer.cs:74-137 | Afterwards both buffers are held, live and up to date: the fingerprint equals the inputs, so an immediate second call takes the fast path. The instance buffer holds `Blades` for the count, pivot and scale, and the args buffer holds the packed args for the count. On the fast path nothing in the component, its generator or its two buffers changes. Otherwise both buffers are fresh, with the engine's counts and strides (count x 16, and 1 x 20), and the old buffers are released. The generator then stands at seed 123 after 3 x count draws. The effects appended are, in order: release args, allocate args, release positions, allocate positions, upload, three bindings, upload args. |
| GrassRenderer.InstancedIndirectGrassRenderer.Regenerate | Assets/URPMobileGrassInstancedIndirectDemo/InstancedIndirectGrass/Core/InstancedIndirectGrassRenderer.cs:86-136 | The slow path: it re-establishes the invariant and the fingerprint, both buffers are fresh and filled, and the old ones are released. |
| GrassRenderer.InstancedIndirectGrassRenderer.ReplaceBuffers | Assets/URPMobileGrassInstancedIndirectDemo/InstancedIndirectGrass/Core/InstancedIndirectGrassRenderer.cs:86-94 | Every buffer allocated before is released, and two fresh empty buffers of the right size are held and recorded. The no-leak invariant holds again. |
| GrassRenderer.InstancedIndirectGrassRenderer.ReplaceArgsBuffer | Assets/URPMobileGrassInstancedIndirectDemo/InstancedIndirectGrass/Core/InstancedIndirectGrassRenderer.cs:86-89 | The held args buffer, if any, is released before a fresh 1 x (5 x 4)-byte buffer replaces it, and the log records the release before the allocation. |
| GrassRenderer.InstancedIndirectGrassRenderer.ReplacePositionBuffer | Assets/URPMobileGrassInstancedIndirectDemo/InstancedIndirectGrass/Core/InstancedIndirectGrassRenderer.cs:91-94 | The same for the instance buffer, with `count` records of 16 bytes. |
| GrassRenderer.InstancedIndirectGrassRenderer.Refill | Assets/URPMobileGrassInstancedIndirectDemo/InstancedIndirectGrass/Core/InstancedIndirectGrassRenderer.cs:96-136 | The given buffers receive the blades and the args, the mesh is built if absent, and the fingerprint becomes (count, pivot, scale). |
| GrassRenderer.InstancedIndirectGrassRenderer.UploadPositions | Assets/URPMobileGrassInstancedIndirectDemo/InstancedIndirectGrass/Core/InstancedIndirectGrassRenderer.cs:96-122 | The buffer holds `Blades` for the count, and the generator stands at seed 123 after 3 x count draws. The log gains, in order: the upload, `_TransformBuffer`, `_PivotPosWS` = (pivot, 0) and `_BoundSize` = (scale.x, scale.z, 0, 0). |
| GrassRenderer.GeneratePositions | Assets/URPMobileGrassInstancedIndirectDemo/InstancedIndirectGrass/Core/InstancedIndirectGrassRenderer.cs:93-117 | The fresh array of `n` slots, filled by the loop, equals `Blades(oracle, n, pivot, scale)`, and the generator was reseeded with 123 and has made 3n draws. |
| GrassRenderer.InstancedIndirectGrassRenderer.PackArgs | Assets/URPMobileGrassInstancedIndirectDemo/InstancedIndirectGrass/Core/InstancedIndirectGrassRenderer.cs:124-129 | The args array is `Pack(GrassDrawArgs(instanceCount))`, read from the cached blade mesh. That mesh is built if absent and otherwise left the same object. |
| GrassRenderer.InstancedIndirectGrassRenderer.UploadArgs | Assets/URPMobileGrassInstancedIndirectDemo/InstancedIndirectGrass/Core/InstancedIndirectGrassRenderer.cs:124-131 | The buffer holds the packed args for the count, and the log gains exactly one upload. |
| GrassRenderer.InstancedIndirectGrassRenderer.OnDisable | Assets/URPMobileGrassInstancedIndirectDemo/InstancedIndirectGrass/Core/InstancedIndirectGrassRenderer.cs:34-44 | Both slots end null, each held buffer is released, and the invariant is kept. The log gains one release per buffer held, so a second call releases nothing. |
| GrassRenderer.InstancedIndirectGrassRenderer.GetGrassMeshCache | Assets/URPMobileGrassInstancedIndirectDemo/InstancedIndirectGrass/Core/InstancedIndirectGrassRenderer.cs:52-72 | The result is the cached mesh, and it is exactly the blade. On the first call it is a new mesh; on later calls it is the same object as before. |
| GrassRenderer.InstancedIndirectGrassRenderer.LateUpdate | Assets/URPMobileGrassInstancedIndirectDemo/InstancedIndirectGrass/Core/InstancedIndirectGrassRenderer.cs:24-33 | The buffers are brought up to date (fast path or regeneration, as in `UpdateBuffersIfNeeded`). Then exactly one indirect draw of submesh 0 of the blade mesh is logged, with the args buffer and bounds centred on the pivot and sized by the scale. |
| GrassRenderer.InstancedIndirectGrassRenderer.OnGUI | Assets/URPMobileGrassInstancedIndirectDemo/InstancedIndirectGrass/Core/InstancedIndirectGrassRenderer.cs:49 | The count becomes the slider's count. |
| GrassRenderer.SliderInstanceCount | Assets/URPMobileGrassInstancedIndirectDemo/InstancedIndirectGrass/Core/InstancedIndirectGrassRenderer.cs:49 | For a slider in [0, 10], the count lies in the inspector's range [1, 100000]. It is 1 exactly when the slider is below 1. Otherwise it is the multiple of 10000 that truncates slider x 10000. |
| GrassRenderer.InstancedIndirectGrassRenderer.constructor | Assets/URPMobileGrassInstancedIndirectDemo/InstancedIndirectGrass/Core/InstancedIndirectGrassRenderer.cs:8-22 | The count is 20000, the cached count is -1, the pivot and scale are the sentinel (none), there is no mesh or buffer, and the invariant holds. |
| GrassPlacement.Blades | Assets/URPMobileGrassInstancedIndirectDemo/InstancedIndirectGrass/Core/InstancedIndirectGrassRenderer.cs:100-117 | The instance array has exactly n records, and record i is blade i. |
| GrassPlacement.BladesPrefix | Assets/URPMobileGrassInstancedIndirectDemo/InstancedIndirectGrass/Core/InstancedIndirectGrassRenderer.cs:96-117 | Because every regeneration restarts at seed 123, the first m records for count n are exactly the records for count m. |
| GrassPlacement.BladeInVolume | Assets/URPMobileGrassInstancedIndirectDemo/InstancedIndirectGrass/Core/InstancedIndirectGrassRenderer.cs:102-116 | A blade whose three draws are in their ranges lies within the box: abs(x - pivot.x) <= abs(scale.x), y = pivot.y, abs(z - pivot.z) <= abs(scale.z), and 2 <= size <= 5. |
| GrassPlacement.BladesInVolume | Assets/URPMobileGrassInstancedIndirectDemo/InstancedIndirectGrass/Core/InstancedIndirectGrassRenderer.cs:100-117 | If the engine keeps every draw in range, all n records lie in the box. |
| GrassPlacement.OffsetBound | Assets/URPMobileGrassInstancedIndirectDemo/InstancedIndirectGrass/Core/InstancedIndirectGrassRenderer.cs:104-111 | An offset t x s from p, with t in [-1, 1], stays within abs(s) of p. |
| GrassPlacement.ScaledUnitBound | Assets/URPMobileGrassInstancedIndirectDemo/InstancedIndirectGrass/Core/InstancedIndirectGrassRenderer.cs:104-105 | abs(t x s) <= abs(s) for t in [-1, 1]. |
| GrassPlacement.BladesAreFlat | Assets/URPMobileGrassInstancedIndirectDemo/InstancedIndirectGrass/Core/InstancedIndirectGrassRenderer.cs:102-116 | Every record sits at the pivot's height, whatever the draws. |
| GrassPlacement.BladesIgnoreScaleY | Assets/URPMobileGrassInstancedIndirectDemo/InstancedIndirectGrass/Core/InstancedIndirectGrassRenderer.cs:104-105 | The instance array does not depend on scale.y. |
| GrassPlacement.BladesTranslate | Assets/URPMobileGrassInstancedIndirectDemo/InstancedIndirectGrass/Core/InstancedIndirectGrassRenderer.cs:111 | Moving the pivot by d moves every record by d and keeps every size. |
| IndirectArgs.Unpack | Assets/URPMobileGrassInstancedIndirectDemo/InstancedIndirectGrass/Core/InstancedIndirectGrassRenderer.cs:124-131 | A words buffer forms an args record exactly when it has 5 words, and packing that record gives the words back. |
| IndirectArgs.UnpackPack | Assets/URPMobileGrassInstancedIndirectDemo/InstancedIndirectGrass/Core/InstancedIndirectGrassRenderer.cs:124-131 | Packing then unpacking gives the record back: the layout is lossless. |
| IndirectArgs.GrassDrawArgsLayout | Assets/URPMobileGrassInstancedIndirectDemo/InstancedIndirectGrass/Core/InstancedIndirectGrassRenderer.cs:124-129 | For a positive count n, the args words are exactly [3, n, 0, 0, 0] and read back as that record. |
| UnityMath.UncheckedToUInt32 | Assets/URPMobileGrassInstancedIndirectDemo/InstancedIndirectGrass/Core/InstancedIndirectGrassRenderer.cs:126 | C#'s `(uint)` of an `int` keeps a non-negative value and wraps a negative one to value + 2^32. |
| GrassMesh.BladeWinding | Assets/URPMobileGrassInstancedIndirectDemo/InstancedIndirectGrass/Core/InstancedIndirectGrassRenderer.cs:60-65 | The blade has 3 vertices and one triangle whose indices name them. Taken in index order (2, 1, 0) the corners wind opposite to vertex order, which is the winding the shader's back-face culling is written for. |
| UnityGraphics.Mesh.constructor | Assets/URPMobileGrassInstancedIndirectDemo/InstancedIndirectGrass/Core/InstancedIndirectGrassRenderer.cs:57 | A new mesh is empty, with submesh 0 at index 0 and base vertex 0. |
| UnityGraphics.Mesh.SetVertices | Assets/URPMobileGrassInstancedIndirectDemo/InstancedIndirectGrass/Core/InstancedIndirectGrassRenderer.cs:67 | The vertex list is replaced; the indices and the submesh layout stay the same. |
| UnityGraphics.Mesh.SetTriangles | Assets/URPMobileGrassInstancedIndirectDemo/InstancedIndirectGrass/Core/InstancedIndirectGrassRenderer.cs:68 | Submesh 0's indices are replaced, starting at 0 with base vertex 0; the engine refuses indices that are not whole triangles or name no vertex. |
| UnityGraphics.ComputeBuffer.constructor | Assets/URPMobileGrassInstancedIndirectDemo/InstancedIndirectGrass/Core/InstancedIndirectGrassRenderer.cs:89-94 | A new live, empty buffer of the given count and stride; the engine demands a positive count and a stride that is a multiple of 4, at most 2048. |
| UnityGraphics.ComputeBuffer.SetData | Assets/URPMobileGrassInstancedIndirectDemo/InstancedIndirectGrass/Core/InstancedIndirectGrassRenderer.cs:119 | Only a live buffer can be written, and afterwards it holds exactly the data given. |
| UnityGraphics.ComputeBuffer.Release | Assets/URPMobileGrassInstancedIndirectDemo/InstancedIndirectGrass/Core/InstancedIndirectGrassRenderer.cs:86-92 | The buffer is released, whether or not it was before. |
| UnityRandom.Random.InitState | Assets/URPMobileGrassInstancedIndirectDemo/InstancedIndirectGrass/Core/InstancedIndirectGrassRenderer.cs:97 | The generator is reseeded and its draw count restarts. |
| UnityRandom.Random.Range | Assets/URPMobileGrassInstancedIndirectDemo/InstancedIndirectGrass/Core/InstancedIndirectGrassRenderer.cs:104-114 | The k-th draw after seeding with s is `oracle(s, k, lo, hi)`, and the draw count advances by one. |
| GrassScenarios.FirstFrame | Assets/URPMobileGrassInstancedIndirectDemo/InstancedIndirectGrass/Core/InstancedIndirectGrassRenderer.cs:24-33 | A new component's first frame leaves it up to date, with 20000 blades and the args for 20000. |
| GrassScenarios.SteadyFrames | Assets/URPMobileGrassInstancedIndirectDemo/InstancedIndirectGrass/Core/InstancedIndirectGrassRenderer.cs:77-84 | With the transform at rest, the second frame draws from the same buffers and mesh, which stay live. The args are [3, 20000, 0, 0, 0] over 20000 records, and the frame logs only its draw. |
| GrassScenarios.RaiseCount | Assets/URPMobileGrassInstancedIndirectDemo/InstancedIndirectGrass/Core/InstancedIndirectGrassRenderer.cs:77-94 | Changing the count from 20000 to 30000 releases both old buffers and replaces them. The args become [3, 30000, 0, 0, 0] over 30000 records, and the first 20000 blades stay where they were. |
| GrassScenarios.DisableAndReenable | Assets/URPMobileGrassInstancedIndirectDemo/InstancedIndirectGrass/Core/InstancedIndirectGrassRenderer.cs:34-44 | Disabling releases both buffers, and disabling again releases nothing. The next frame regenerates even though the fingerprint is unchanged. Because of the reseed it places the same blades, even after other code drew from the generator. |
| GrassScenarios.DefaultVolume | Assets/URPMobileGrassInstancedIndirectDemo/InstancedIndirectGrass/Core/InstancedIndirectGrassRenderer.cs:100-117 | With count 20000, pivot at the origin and scale (10, 1, 10), there are 20000 records, with x and z in [-10, 10], y = 0 and size in [2, 5], provided the engine keeps its draws in range. |

## Left out

- The static `instance` reference (R.cs lines 14 and 26) is not modelled: it is a global handle that no modelled behaviour reads.
- `Graphics.DrawMeshInstancedIndirect` is a foreign rendering call. It is recorded only as a `DrewIndirect` event; the material argument and the rendering itself are not modelled.
- The material bindings (R.cs lines 120-122) are recorded as `BoundBuffer`/`BoundVector` events. The material object itself is not modelled.
- `OnGUI`'s label (R.cs line 48) is not modelled. The slider's position is a parameter; the engine clamps it to [0, 10].
- Floating point is not modelled. Vectors are exact reals, and blade positions are exact products and sums.
- GrassRenderer.InstancedIndirectGrassRenderer.IsUpToDate compares pivot and scale exactly. Unity's `Vector3 ==` is approximate, so very small transform changes that the engine treats as equal regenerate in the model.
- GrassRenderer.InstancedIndirectGrassRenderer.GetGrassMeshCache tests the cache for null only. Unity's `!cachedGrassMesh` is also true for a mesh that was destroyed, which is not modelled.
- GrassRenderer.InstancedIndirectGrassRenderer.UpdateBuffersIfNeeded requires `instanceCount >= 1`. The same holds for `LateUpdate`, `Regenerate` and `Refill`.
  - The source does not guard this: a zero count makes the engine throw when it allocates the buffer, and a negative one when it allocates the array.
  - The model keeps to the field's `[Range(1,100000)]` and the slider's minimum of 1 instead of modelling the exception.
- The generator's algorithm is not modelled: `Random.Range` is an oracle of (seed, draw index, lo, hi).
- GrassPlacement.BladesInVolume and GrassScenarios.DefaultVolume hold only under the engine's promise that `Range(lo, hi)` returns values in [lo, hi], taken as a hypothesis.
  - The bound they give is abs(scale.x) and abs(scale.z), not scale.x and scale.z: with a negative scale the code mirrors the box, and a signed bound would be false.
- `ComputeBuffer`'s type flag (`IndirectArguments`) is not modelled. Neither is the engine's check that uploaded data fits the buffer; the model's uploads fit by construction.
- `Mesh` keeps only submesh 0, the only one the component uses.
- Edit-mode execution (`[ExecuteAlways]`) and the engine's scheduling of callbacks are not modelled. The scenarios call the callbacks in the orders the engine can.
