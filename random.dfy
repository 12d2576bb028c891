/**
 * The seeded random number generator the tree builder advances.
 *
 * The generator's algorithm is foreign, so it is modelled as an oracle: the
 * numbers it will return, one consumed per sampling call. A build consumes
 * finitely many of them, so the stream is a finite sequence that reads as 0
 * past its end. A call that samples from a range reduces its number into the
 * range, so every stream gives in-range draws and every in-range value is the
 * draw of some stream.
 */
module Random {
  import opened Ast

  type Stream = seq<nat>

  /** The number at position `pos` of the stream. */
  function At(draws: Stream, pos: nat): nat {
    if pos < |draws| then draws[pos] else 0
  }

  /** `gen_range(lo..hi)` as the draw at position `pos`. */
  function DrawRange(draws: Stream, pos: nat, lo: nat, hi: nat): (x: nat)
    requires lo < hi
    ensures lo <= x < hi
  {
    lo + At(draws, pos) % (hi - lo)
  }

  /** Every value of the range is drawn by some stream: the oracle hides no outcome. */
  lemma DrawRangeReaches(pos: nat, lo: nat, hi: nat, x: nat)
    requires lo <= x < hi
    ensures DrawRange(seq(pos + 1, _ => x - lo), pos, lo, hi) == x
  {
  }

  /** `gen::<bool>()` as the draw at position `pos`. */
  predicate DrawBool(draws: Stream, pos: nat) {
    At(draws, pos) % 2 == 1
  }

  /** Both outcomes of a coin are drawn by some stream: an odd number gives true, an even one false. */
  lemma DrawBoolReaches(pos: nat, b: bool)
    ensures DrawBool(seq(pos + 1, _ => if b then 1 else 0), pos) == b
  {
  }

  /** `gen::<usize>()` as the draw at position `pos`. */
  function DrawUsize(draws: Stream, pos: nat): (x: nat)
    ensures x < UsizeBound
  {
    At(draws, pos) % UsizeBound
  }

  /** A generator: a fixed stream and how much of it has been consumed. */
  class Rng {
    const draws: Stream
    var pos: nat

    constructor (draws: Stream)
      ensures this.draws == draws && pos == 0
    {
      this.draws := draws;
      pos := 0;
    }

    method GenRange(lo: nat, hi: nat) returns (x: nat)
      requires lo < hi
      modifies this
      ensures x == DrawRange(draws, old(pos), lo, hi)
      ensures pos == old(pos) + 1
    {
      x := DrawRange(draws, pos, lo, hi);
      pos := pos + 1;
    }

    method GenBool() returns (b: bool)
      modifies this
      ensures b == DrawBool(draws, old(pos))
      ensures pos == old(pos) + 1
    {
      b := DrawBool(draws, pos);
      pos := pos + 1;
    }

    method GenUsize() returns (x: nat)
      modifies this
      ensures x == DrawUsize(draws, old(pos))
      ensures pos == old(pos) + 1
    {
      x := DrawUsize(draws, pos);
      pos := pos + 1;
    }
  }
}
