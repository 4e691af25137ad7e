/** The seeded stream as the object the source threads through its builders: each draw advances it. */
module Random {
  import Oracle

  class Rng {
    const tape: Oracle.Tape
    var pos: nat

    constructor (tape: Oracle.Tape)
      ensures this.tape == tape && pos == 0
    {
      this.tape := tape;
      pos := 0;
    }

    method IntN(k: int) returns (r: nat)
      requires k > 0
      modifies this
      ensures pos == old(pos) + 1
      ensures r == Oracle.IntN(tape(old(pos)), k) < k
    {
      r := Oracle.IntN(tape(pos), k);
      pos := pos + 1;
    }

    method Float64() returns (r: real)
      modifies this
      ensures pos == old(pos) + 1
      ensures 0.0 <= r < 1.0 && r == Oracle.Float64(tape(old(pos)))
    {
      r := Oracle.Float64(tape(pos));
      pos := pos + 1;
    }

    /** One raw draw, for the parts of the source that read the stream in other ways. */
    method Next() returns (r: nat)
      modifies this
      ensures pos == old(pos) + 1
      ensures r == tape(old(pos))
    {
      r := tape(pos);
      pos := pos + 1;
    }
  }
}
