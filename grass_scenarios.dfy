/**
 * Frame sequences of one grass component as the engine drives it: a frame
 * calls LateUpdate, disabling the component calls OnDisable. Each method
 * builds a fresh component on its own generator and reports what the frames
 * leave behind.
 */
module GrassScenarios {
  import opened UnityMath
  import opened UnityRandom
  import opened UnityGraphics
  import opened IndirectArgs
  import opened GrassPlacement
  import opened GrassRenderer

  /** A new component with the default count, after its first frame at the given transform. */
  method FirstFrame(oracle: Oracle, seed: int, pivot: Vec3, scale: Vec3)
    returns (grass: InstancedIndirectGrassRenderer, random: Random, positions: ComputeBuffer<Vec4>, args: ComputeBuffer<uint32>)
    ensures fresh(grass) && fresh(random) && fresh(positions) && fresh(args)
    ensures grass.random == random && random.oracle == oracle
    ensures grass.Valid() && grass.IsUpToDate(pivot, scale) && grass.instanceCount == 20000
    ensures grass.positionBuffer == positions && grass.argsBuffer == args
    ensures !positions.released && !args.released
    ensures positions.data == Blades(oracle, 20000, pivot, scale)
    ensures args.data == Pack(GrassDrawArgs(20000))
  {
    random := new Random(oracle, seed, 0);
    grass := new InstancedIndirectGrassRenderer(random);
    var _, a := grass.LateUpdate(pivot, scale);
    positions := grass.positionBuffer;
    args := a;
  }

  /**
   * Two frames with the transform at rest: the first builds both buffers for
   * the default 20000 instances, the second draws from the same two buffers
   * without releasing, allocating or uploading anything.
   */
  method SteadyFrames(oracle: Oracle, pivot: Vec3, scale: Vec3)
    returns (args: seq<uint32>, instances: nat, reused: bool, live: bool)
    ensures args == [3, 20000, 0, 0, 0]
    ensures instances == 20000
    ensures reused && live
  {
    var grass, random, positions1, args1 := FirstFrame(oracle, 0, pivot, scale);
    var mesh1 := grass.cachedGrassMesh;
    ghost var trace1 := grass.trace;

    var mesh2, args2 := grass.LateUpdate(pivot, scale);
    assert grass.trace == trace1 + [DrewIndirect(mesh2, 0, pivot, scale, args2)];

    GrassDrawArgsLayout(grass.instanceCount);
    args := args2.data;
    instances := |grass.positionBuffer.data|;
    reused := args2 == args1 && grass.positionBuffer == positions1 && mesh2 == mesh1;
    live := !args2.released && !grass.positionBuffer.released;
  }

  /**
   * Raising the count from 20000 to 30000 between frames regenerates: both
   * old buffers are released, the new ones are different objects, the args
   * read 30000 instances, and the first 20000 blades are the ones the first
   * frame placed.
   */
  method RaiseCount(oracle: Oracle, pivot: Vec3, scale: Vec3)
    returns (oldReleased: bool, replaced: bool, args: seq<uint32>, instances: nat, prefixKept: bool)
    ensures oldReleased && replaced && prefixKept
    ensures args == [3, 30000, 0, 0, 0]
    ensures instances == 30000
  {
    var grass, random, positions1, args1 := FirstFrame(oracle, 0, pivot, scale);
    var data1 := positions1.data;

    grass.instanceCount := 30000;
    var _, args2 := grass.LateUpdate(pivot, scale);

    GrassDrawArgsLayout(grass.instanceCount);
    BladesPrefix(oracle, 20000, 30000, pivot, scale);
    oldReleased := args1.released && positions1.released;
    replaced := args2 != args1 && grass.positionBuffer != positions1;
    args := args2.data;
    instances := |grass.positionBuffer.data|;
    prefixKept := grass.positionBuffer.data[..20000] == data1;
  }

  /**
   * Disabling releases both buffers, and disabling again releases nothing;
   * the next frame builds new ones. Because
   * every regeneration reseeds the generator, the new instances equal the
   * old ones even though other code drew from the generator in between.
   */
  method DisableAndReenable(oracle: Oracle, pivot: Vec3, scale: Vec3)
    returns (oldReleased: bool, replaced: bool, samePlacement: bool)
    ensures oldReleased && replaced && samePlacement
  {
    var grass, random, positions1, args1 := FirstFrame(oracle, 7, pivot, scale);
    var data1 := positions1.data;

    grass.OnDisable();
    ghost var afterFirst := grass.trace;
    grass.OnDisable();
    assert grass.trace == afterFirst;
    var other := random.Range(0.0, 1.0);

    var _, args2 := grass.LateUpdate(pivot, scale);

    oldReleased := args1.released && positions1.released;
    replaced := args2 != args1 && grass.positionBuffer != positions1;
    samePlacement := grass.positionBuffer.data == data1;
  }

  /**
   * The default configuration: 20000 blades about the origin in a volume of
   * scale (10, 1, 10) lie within 10 of the origin in x and z, on the ground,
   * with sizes in [2, 5], provided the engine keeps its draws in range.
   */
  lemma DefaultVolume(oracle: Oracle)
    requires forall i :: 0 <= i < 20000 ==> BladeDrawsInRange(oracle, i)
    ensures |Blades(oracle, 20000, Zero3, Vec3(10.0, 1.0, 10.0))| == 20000
    ensures forall i :: 0 <= i < 20000 ==>
      var b := Blades(oracle, 20000, Zero3, Vec3(10.0, 1.0, 10.0))[i];
      -10.0 <= b.x <= 10.0 && b.y == 0.0 && -10.0 <= b.z <= 10.0 && 2.0 <= b.w <= 5.0
  {
    var scale := Vec3(10.0, 1.0, 10.0);
    var blades := Blades(oracle, 20000, Zero3, scale);
    forall i | 0 <= i < 20000
      ensures -10.0 <= blades[i].x <= 10.0 && blades[i].y == 0.0 && -10.0 <= blades[i].z <= 10.0
      ensures 2.0 <= blades[i].w <= 5.0
    {
      BladeInVolume(oracle, i, Zero3, scale);
      assert blades[i] == Blade(oracle, i, Zero3, scale);
    }
  }
}
