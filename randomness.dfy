/** An injected source of uniform draws, standing for `Math.random()` and for
    the `seedrandom` generator: an infinite stream of reals in [0, 1) and a
    cursor that every draw advances by one. */
module Randomness {
  /** A real in [0, 1), as `Math.random()` returns. */
  type Unit = u: real | 0.0 <= u < 1.0

  type UnitStream = nat -> Unit

  class Draws {
    const stream: UnitStream
    var used: nat

    constructor (stream: UnitStream)
      ensures this.stream == stream && used == 0
    {
      this.stream := stream;
      used := 0;
    }

    /** The draw at position `used`; the stream moves on by one. */
    method Next() returns (u: real)
      modifies this
      ensures 0.0 <= u < 1.0
      ensures u == stream(old(used)) && used == old(used) + 1
    {
      u := stream(used);
      used := used + 1;
    }
  }
}
