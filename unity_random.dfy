/**
 * The engine's global pseudo-random generator (`Random.InitState`,
 * `Random.Range`). Its algorithm is not modelled: after `InitState(seed)` the
 * k-th call `Range(lo, hi)` returns `oracle(seed, k, lo, hi)`, for an oracle
 * fixed by the engine and otherwise unknown.
 */
module UnityRandom {

  /** The value of the k-th `Range(lo, hi)` draw after `InitState(seed)`. */
  type Oracle = (int, nat, real, real) -> real

  /** The engine's promise for `Range(lo, hi)` on floats: a value in [lo, hi]. */
  ghost predicate DrawInRange(oracle: Oracle, seed: int, k: nat, lo: real, hi: real) {
    lo <= oracle(seed, k, lo, hi) <= hi
  }

  /** The generator state: the last seed and the number of draws made since. */
  class Random {
    const oracle: Oracle
    var seed: int
    var draws: nat

    constructor (oracle: Oracle, seed: int, draws: nat)
      ensures this.oracle == oracle && this.seed == seed && this.draws == draws
    {
      this.oracle := oracle;
      this.seed := seed;
      this.draws := draws;
    }

    /** Reseeds the generator; the next draw is the first of the new seed. */
    method InitState(s: int)
      modifies this`seed, this`draws
      ensures seed == s && draws == 0
    {
      seed := s;
      draws := 0;
    }

    /** Draws the next value for the range [lo, hi]. */
    method Range(lo: real, hi: real) returns (r: real)
      modifies this`seed, this`draws
      ensures r == oracle(seed, old(draws), lo, hi)
      ensures seed == old(seed) && draws == old(draws) + 1
    {
      r := oracle(seed, draws, lo, hi);
      draws := draws + 1;
    }
  }
}
