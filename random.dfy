/**
 * `Math.random()` as an explicit source: a fixed stream of draws and a
 * cursor that advances by one per call.
 */
module Random {

  /** Every draw of `Math.random()` lies in [0, 1). */
  ghost predicate UnitStream(draw: nat -> real) {
    forall i :: 0.0 <= draw(i) < 1.0
  }

  class Rng {
    const draw: nat -> real
    var cursor: nat

    constructor (stream: nat -> real)
      ensures draw == stream && cursor == 0
    {
      draw := stream;
      cursor := 0;
    }

    ghost predicate Uniform()
      reads this
    {
      UnitStream(draw)
    }

    /** One call of `Math.random()`. */
    method Next() returns (u: real)
      modifies this`cursor
      ensures u == draw(old(cursor)) && cursor == old(cursor) + 1
      ensures Uniform() ==> 0.0 <= u < 1.0
    {
      u := draw(cursor);
      cursor := cursor + 1;
    }

    /** Moves past n draws that a caller has read straight from the stream. */
    method Skip(n: nat)
      modifies this`cursor
      ensures cursor == old(cursor) + n
    {
      cursor := cursor + n;
    }
  }
}
