/** The seeded linear-congruential generator behind every placement batch of
    the embed page: each batch owns a closure over its own seed variable that
    advances it to (seed * 9301 + 49297) % 233280 and returns seed / 233280. */
module Lcg {

  const Modulus: int := 233280
  const Multiplier: int := 9301
  const Increment: int := 49297

  /** Integers up to 2^53 are exact in a JavaScript number. */
  const ExactLimit: int := 0x20_0000_0000_0000

  /** A seed variable's value. Every batch starts from a literal in this
      range, and a step never leaves it, so the model keeps seeds here. */
  type Seed = s: int | 0 <= s < Modulus

  /** JavaScript's `%`: the remainder truncates toward zero, so it takes the
      sign of the dividend; on a non-negative dividend it is the Euclidean
      remainder. */
  function JsRem(a: int, b: int): (r: int)
    requires b > 0
    ensures a >= 0 ==> 0 <= r < b && r == a % b
    ensures a < 0 ==> -b < r <= 0
  {
    if a >= 0 then a % b else -((-a) % b)
  }

  /** The product and sum a step forms stay below 2^53, so the double
      arithmetic of the original computes them exactly. */
  lemma StepExact(s: Seed)
    ensures 0 <= s * Multiplier + Increment < ExactLimit
  {
  }

  /** One advance of a seed variable. */
  function Step(s: Seed): (r: Seed)
    ensures r == (s * Multiplier + Increment) % Modulus
  {
    var next := s * Multiplier + Increment;
    assert 0 <= next;
    JsRem(next, Modulus)
  }

  /** The value a draw returns, given the seed it has just stored. */
  function Value(s: Seed): (v: real)
    ensures 0.0 <= v < 1.0
    ensures v * Modulus as real == s as real
  {
    s as real / Modulus as real
  }

  /** The seed after n draws. */
  function StepN(s: Seed, n: nat): Seed
    decreases n
  {
    if n == 0 then s else StepN(Step(s), n - 1)
  }

  /** The first n values a generator started at `s` returns. */
  function Stream(s: Seed, n: nat): (vs: seq<real>)
    ensures |vs| == n
    decreases n
  {
    if n == 0 then [] else [Value(Step(s))] + Stream(Step(s), n - 1)
  }

  /** Draw i of a stream is the value of the seed after i + 1 steps. */
  lemma {:induction false} StreamAt(s: Seed, n: nat, i: nat)
    requires i < n
    ensures Stream(s, n)[i] == Value(StepN(s, i + 1))
    decreases n
  {
    if i > 0 {
      StreamAt(Step(s), n - 1, i - 1);
    }
  }

  /** Taking m draws and then n more is taking m + n draws, and the values
      continue where the first m left off. */
  lemma {:induction false} StreamSplit(s: Seed, m: nat, n: nat)
    ensures StepN(s, m + n) == StepN(StepN(s, m), n)
    ensures Stream(s, m + n) == Stream(s, m) + Stream(StepN(s, m), n)
    decreases m
  {
    if m > 0 {
      StreamSplit(Step(s), m - 1, n);
    }
  }

  /** A generator closure: the seed variable it captures, advanced in place by
      every call. */
  class Rng {
    var seed: Seed

    constructor (initial: Seed)
      ensures seed == initial
    {
      seed := initial;
    }

    /** `random()`: advance the seed and return the new seed over 233280. */
    method Next() returns (v: real)
      modifies this
      ensures seed == Step(old(seed)) && v == Value(seed)
    {
      seed := (seed * Multiplier + Increment) % Modulus;
      v := seed as real / Modulus as real;
    }
  }
}
