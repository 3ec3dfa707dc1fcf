/**
 * Where the grass blades go. Every regeneration reseeds the generator with
 * the same constant and then draws three values per blade, in index order:
 * the x offset, the z offset (both in [-1, 1], scaled by the volume) and the
 * blade size (in [2, 5]). A blade therefore depends only on its index, the
 * pivot and the scale.
 */
module GrassPlacement {
  import opened UnityMath
  import opened UnityRandom

  /** The seed every regeneration starts from, so the grass looks the same each time. */
  const GrassSeed: int := 123

  /** Draws per blade. */
  const DrawsPerBlade: nat := 3

  /** Blade i: the pivot plus scaled x and z offsets at the pivot's height, with its size. */
  function Blade(oracle: Oracle, i: nat, pivot: Vec3, scale: Vec3): Vec4 {
    Vec4(oracle(GrassSeed, 3 * i, -1.0, 1.0) * scale.x + pivot.x,
         pivot.y,
         oracle(GrassSeed, 3 * i + 1, -1.0, 1.0) * scale.z + pivot.z,
         oracle(GrassSeed, 3 * i + 2, 2.0, 5.0))
  }

  /** The instance array for n blades, filled in index order. */
  function Blades(oracle: Oracle, n: nat, pivot: Vec3, scale: Vec3): (r: seq<Vec4>)
    ensures |r| == n
    ensures forall i :: 0 <= i < n ==> r[i] == Blade(oracle, i, pivot, scale)
  {
    if n == 0 then [] else Blades(oracle, n - 1, pivot, scale) + [Blade(oracle, n - 1, pivot, scale)]
  }

  /** A blade lies in the placement volume about the pivot, at its height, with a size in [2, 5]. */
  ghost predicate InVolume(b: Vec4, pivot: Vec3, scale: Vec3) {
    && Abs(b.x - pivot.x) <= Abs(scale.x)
    && b.y == pivot.y
    && Abs(b.z - pivot.z) <= Abs(scale.z)
    && 2.0 <= b.w <= 5.0
  }

  /** The engine keeps the draws of blade i within their ranges. */
  ghost predicate BladeDrawsInRange(oracle: Oracle, i: nat) {
    && DrawInRange(oracle, GrassSeed, 3 * i, -1.0, 1.0)
    && DrawInRange(oracle, GrassSeed, 3 * i + 1, -1.0, 1.0)
    && DrawInRange(oracle, GrassSeed, 3 * i + 2, 2.0, 5.0)
  }

  lemma MulNonnegative(a: real, b: real)
    requires a >= 0.0 && b >= 0.0
    ensures a * b >= 0.0
  {
  }

  /** |t * s| <= |s| for t in [-1, 1]. */
  lemma ScaledUnitBound(t: real, s: real)
    requires -1.0 <= t <= 1.0
    ensures Abs(t * s) <= Abs(s)
  {
    MulNonnegative(1.0 - t, Abs(s));
    MulNonnegative(1.0 + t, Abs(s));
    if s < 0.0 {
      assert t * s == -(t * Abs(s));
    }
  }

  /** A point x laid off from p by t * s, for t in [-1, 1], stays within |s| of p. */
  lemma OffsetBound(t: real, s: real, p: real, x: real)
    requires -1.0 <= t <= 1.0
    requires x == t * s + p
    ensures Abs(x - p) <= Abs(s)
  {
    ScaledUnitBound(t, s);
  }

  /** A blade whose draws are in range lies in the volume. */
  lemma BladeInVolume(oracle: Oracle, i: nat, pivot: Vec3, scale: Vec3)
    requires BladeDrawsInRange(oracle, i)
    ensures InVolume(Blade(oracle, i, pivot, scale), pivot, scale)
  {
    var b := Blade(oracle, i, pivot, scale);
    OffsetBound(oracle(GrassSeed, 3 * i, -1.0, 1.0), scale.x, pivot.x, b.x);
    OffsetBound(oracle(GrassSeed, 3 * i + 1, -1.0, 1.0), scale.z, pivot.z, b.z);
  }

  /** When the engine keeps every draw in range, all n blades lie in the volume. */
  lemma BladesInVolume(oracle: Oracle, n: nat, pivot: Vec3, scale: Vec3)
    requires forall i :: 0 <= i < n ==> BladeDrawsInRange(oracle, i)
    ensures forall i :: 0 <= i < n ==> InVolume(Blades(oracle, n, pivot, scale)[i], pivot, scale)
  {
    forall i | 0 <= i < n
      ensures InVolume(Blades(oracle, n, pivot, scale)[i], pivot, scale)
    {
      BladeInVolume(oracle, i, pivot, scale);
    }
  }

  /** Placement is flat: every blade sits at the pivot's height, whatever the draws. */
  lemma BladesAreFlat(oracle: Oracle, n: nat, pivot: Vec3, scale: Vec3)
    ensures forall i :: 0 <= i < n ==> Blades(oracle, n, pivot, scale)[i].y == pivot.y
  {
  }

  /**
   * Raising the count keeps the blades already placed: since every
   * regeneration restarts from the same seed, the first m blades of n are the
   * m blades of a regeneration with count m.
   */
  lemma BladesPrefix(oracle: Oracle, m: nat, n: nat, pivot: Vec3, scale: Vec3)
    requires m <= n
    ensures Blades(oracle, n, pivot, scale)[..m] == Blades(oracle, m, pivot, scale)
  {
  }

  /** The blades do not depend on the y component of the scale. */
  lemma BladesIgnoreScaleY(oracle: Oracle, n: nat, pivot: Vec3, scale: Vec3, y: real)
    ensures Blades(oracle, n, pivot, scale) == Blades(oracle, n, pivot, Vec3(scale.x, y, scale.z))
  {
    var a, b := Blades(oracle, n, pivot, scale), Blades(oracle, n, pivot, Vec3(scale.x, y, scale.z));
    forall i | 0 <= i < n
      ensures a[i] == b[i]
    {
      assert a[i] == Blade(oracle, i, pivot, scale);
      assert b[i] == Blade(oracle, i, pivot, Vec3(scale.x, y, scale.z));
    }
  }

  /**
   * Moving the transform by `d` moves every blade rigidly by `d`, sizes
   * unchanged: the draws do not depend on the pivot.
   */
  lemma BladesTranslate(oracle: Oracle, n: nat, pivot: Vec3, d: Vec3, scale: Vec3)
    ensures forall i :: 0 <= i < n ==>
      Blades(oracle, n, Add(pivot, d), scale)[i] == ShiftBy(Blades(oracle, n, pivot, scale)[i], d)
  {
  }

  /** An instance record moved by `d`. */
  function ShiftBy(b: Vec4, d: Vec3): Vec4 {
    Vec4(b.x + d.x, b.y + d.y, b.z + d.z, b.w)
  }
}
