/**
 * The hash accumulator that `wrangle` feeds. Its digest is a foreign
 * algorithm, so the accumulator is modelled by what it is fed: the
 * sequence of values hashed into it, in order.
 */
module Hashing {
  import opened Ast

  /** One value fed to the accumulator: a name's contents or an operator. */
  datatype Token = NameToken(name: string) | OpToken(op: BinOp)

  class Hasher {
    /** Everything fed so far, oldest first. */
    var trace: seq<Token>

    constructor ()
      ensures trace == []
    {
      trace := [];
    }

    /** `Hash::hash(value, state)`: appends one value and forgets nothing. */
    method Feed(t: Token)
      modifies this
      ensures trace == old(trace) + [t]
    {
      trace := trace + [t];
    }
  }

  /** The names among the tokens, in the order they were fed. */
  function NamesFed(ts: seq<Token>): (names: seq<string>)
    ensures |names| <= |ts|
    decreases |ts|
  {
    if ts == [] then []
    else NamesFed(ts[..|ts| - 1]) + (match ts[|ts| - 1] case NameToken(n) => [n] case OpToken(_) => [])
  }

  /** Filtering names out of a concatenation filters each part. */
  lemma {:induction false} NamesFedAppend(a: seq<Token>, b: seq<Token>)
    ensures NamesFed(a + b) == NamesFed(a) + NamesFed(b)
    decreases |b|
  {
    if b == [] {
      assert a + b == a;
    } else {
      NamesFedAppend(a, b[..|b| - 1]);
      assert (a + b)[..|a + b| - 1] == a + b[..|b| - 1];
    }
  }
}
