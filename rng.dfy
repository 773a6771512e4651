/**
 * The pseudo-random source (`random.Random`, and numpy's global generator)
 * as a stream of `random()` draws.  Bit-exact reproduction of the Mersenne
 * Twister is not modelled: a seed is represented by the stream it yields.
 */
module Rand {
  import opened Host

  /** An infinite stream of `random()` results, each in [0, 1). */
  type Draws = s: nat -> real | forall k :: 0.0 <= s(k) < 1.0 witness (k: nat) => 0.0

  /** `uniform(a, b)` computed from one `random()` draw `u`, as Python and numpy do. */
  function UniformOf(a: real, b: real, u: real): (x: real)
    requires a <= b && 0.0 <= u < 1.0
    ensures a <= x <= b
    ensures a < b ==> x < b
  {
    var w := b - a;
    UnitScale(w, u);
    a + w * u
  }

  lemma UnitScale(w: real, u: real)
    requires 0.0 <= w && 0.0 <= u < 1.0
    ensures 0.0 <= w * u <= w
    ensures 0.0 < w ==> w * u < w
  {
    assert w - w * u == w * (1.0 - u);
    assert 0.0 <= w * (1.0 - u);
    if 0.0 < w {
      assert 0.0 < w * (1.0 - u);
    }
  }

  /**
   * `randint(low, high)` computed from one draw: an integer in [low, high).
   * numpy's own mapping from random bits to integers is not modelled.
   */
  function RandIntOf(low: int, high: int, u: real): (k: int)
    requires low < high && 0.0 <= u < 1.0
    ensures low <= k < high
  {
    var w := (high - low) as real;
    UnitScale(w, u);
    low + (w * u).Floor
  }

  /** `randn(n)`: `n` standard normal deviates from the next `n` draws. */
  function GaussOf(draws: Draws, pos: nat, n: nat): (xs: seq<real>)
    ensures |xs| == n
  {
    seq(n, i requires 0 <= i < n => GAUSS(draws(pos + i)))
  }

  /** A generator object: a fixed stream and how many draws have been taken. */
  class Rng {
    const draws: Draws
    var pos: nat

    /** `random.Random(seed)`: a fresh generator at the start of the seed's stream. */
    constructor (draws: Draws)
      ensures this.draws == draws && pos == 0
    {
      this.draws := draws;
      pos := 0;
    }

    /** `random()`: the next draw. */
    method Random() returns (u: real)
      modifies this
      ensures u == draws(old(pos)) && 0.0 <= u < 1.0
      ensures pos == old(pos) + 1
    {
      u := draws(pos);
      pos := pos + 1;
    }

    /** `uniform(a, b)`: one draw scaled into [a, b]. */
    method Uniform(a: real, b: real) returns (x: real)
      requires a <= b
      modifies this
      ensures x == UniformOf(a, b, draws(old(pos))) && a <= x <= b
      ensures pos == old(pos) + 1
    {
      var u := Random();
      x := a + (b - a) * u;
    }

    /** `randint(low, high)`; numpy raises for an empty range, which callers check first. */
    method RandInt(low: int, high: int) returns (k: int)
      requires low < high
      modifies this
      ensures k == RandIntOf(low, high, draws(old(pos))) && low <= k < high
      ensures pos == old(pos) + 1
    {
      var u := Random();
      k := RandIntOf(low, high, u);
    }

    /** `randn(n)` and `normal(0, 1, n)`: `n` deviates, one draw each. */
    method Gauss(n: nat) returns (xs: seq<real>)
      modifies this
      ensures xs == GaussOf(draws, old(pos), n)
      ensures pos == old(pos) + n
    {
      xs := GaussOf(draws, pos, n);
      pos := pos + n;
    }
  }
}
