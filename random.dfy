/** The random source of a run: a distribution `d` sampled with a generator `g`.

    The generator and the distribution are outside the model.  What the estimators can
    observe of them is the sequence of values successive calls `d(g)` return and how many
    of those calls have been made, so a `Source` is a fixed stream of draws and a cursor.
    Like `Distribution &` and `Generator &` in the source, one `Source` object is shared by
    every sequence of a run, and a draw by any of them advances it for all. */
module Random {

  class Source {
    /** The value of the i-th draw of the run. */
    const stream: nat -> real
    /** The number of draws made so far: the generator's position. */
    var used: nat

    constructor (stream: nat -> real)
      ensures this.stream == stream && used == 0
    {
      this.stream := stream;
      used := 0;
    }

    /** `d(g)`: returns the next draw and advances the generator by one. */
    method Draw() returns (x: real)
      modifies this
      ensures used == old(used) + 1
      ensures x == stream(old(used))
    {
      x := stream(used);
      used := used + 1;
    }
  }
}
