/**
  The process-wide random generator, made explicit. A seeded pseudo-random
  generator is a fixed, endless sequence of draws and a cursor into it; the
  sequence is `stream`, the cursor `pos`, and every call to `Next` consumes
  exactly one draw.
 */
module RandomSource {
  import opened Perturbation

  /** Every draw of the stream lies in [0, 1), as `np.random.rand()` promises. */
  ghost predicate UnitStream(stream: int -> real) {
    forall k: int :: UnitDraw(stream(k))
  }

  class Rng {
    /** The draws the generator will ever produce, in order. */
    const stream: int -> real
    /** How many draws have been consumed so far. */
    var pos: nat

    ghost predicate Valid() {
      UnitStream(stream)
    }

    constructor (stream: int -> real)
      requires UnitStream(stream)
      ensures Valid()
      ensures this.stream == stream && pos == 0
    {
      this.stream := stream;
      pos := 0;
    }

    /** One unit draw: the next element of the stream. */
    method Next() returns (u: real)
      modifies this
      ensures pos == old(pos) + 1
      ensures u == stream(old(pos))
      ensures Valid() ==> UnitDraw(u)
    {
      u := stream(pos);
      pos := pos + 1;
    }
  }
}
