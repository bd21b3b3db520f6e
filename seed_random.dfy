/** `SeededRandom` of src/utils/SeedRandom.js: a wrapper over a generator whose
    draws lie in [0, 1), with integer and float range mappings. */
module SeedRandom {
  import opened Randomness

  /** A draw in [0, 1) stretched over a width, `u * width`. */
  function Stretch(u: real, width: real): (r: real)
    requires 0.0 <= u < 1.0
    ensures 0.0 < width ==> 0.0 <= r < width
  {
    u * width
  }

  /** `Math.floor(u * (max - min + 1)) + min`. */
  function IntInRange(u: real, min: int, max: int): (r: int)
    requires 0.0 <= u < 1.0
    ensures min <= max ==> min <= r <= max
  {
    Stretch(u, (max - min + 1) as real).Floor + min
  }

  lemma IntInRangeSingleton(u: real, m: int)
    requires 0.0 <= u < 1.0
    ensures IntInRange(u, m, m) == m
  {
  }

  /** `u * (max - min) + min`. */
  function FloatInRange(u: real, min: real, max: real): (r: real)
    requires 0.0 <= u < 1.0
    ensures min < max ==> min <= r < max
  {
    Stretch(u, max - min) + min
  }

  class SeededRandom {
    /** The generator `seedrandom(seed)`; how a seed picks its stream is the
        library's business. */
    const generator: Draws

    constructor (stream: UnitStream)
      ensures fresh(generator) && generator.stream == stream && generator.used == 0
    {
      generator := new Draws(stream);
    }

    /** `random()`: one draw of the generator. */
    method Random() returns (u: real)
      modifies generator
      ensures 0.0 <= u < 1.0
      ensures u == generator.stream(old(generator.used)) && generator.used == old(generator.used) + 1
    {
      u := generator.Next();
    }

    method RandomInt(min: int, max: int) returns (r: int)
      modifies generator
      ensures generator.used == old(generator.used) + 1
      ensures r == IntInRange(generator.stream(old(generator.used)), min, max)
      ensures min <= max ==> min <= r <= max
    {
      var u := Random();
      r := IntInRange(u, min, max);
    }

    method RandomFloat(min: real, max: real) returns (r: real)
      modifies generator
      ensures generator.used == old(generator.used) + 1
      ensures r == FloatInRange(generator.stream(old(generator.used)), min, max)
      ensures min < max ==> min <= r < max
    {
      var u := Random();
      r := FloatInRange(u, min, max);
    }
  }
}
