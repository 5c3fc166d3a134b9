/** Sequence laws that the proofs call by name, so that no proof has to find them. */
module Seqs {

  lemma Assoc<T>(x: seq<T>, y: seq<T>, z: seq<T>)
    ensures x + y + z == x + (y + z)
  {
  }

  lemma Unit<T>(x: seq<T>)
    ensures [] + x == x == x + []
  {
  }

  /** The first element of a concatenation with a nonempty left part. */
  lemma Uncons<T>(x: seq<T>, y: seq<T>)
    requires x != []
    ensures (x + y)[0] == x[0] && (x + y)[1..] == x[1..] + y
  {
  }

  lemma Split<T>(x: seq<T>, n: nat)
    requires n <= |x|
    ensures x == x[..n] + x[n..]
  {
  }

  lemma Cut<T>(x: seq<T>, y: seq<T>)
    ensures (x + y)[..|x|] == x && (x + y)[|x|..] == y
  {
  }

  /** A slice at the front of a concatenation. */
  lemma Front<T>(x: seq<T>, y: seq<T>, n: nat)
    requires n <= |x|
    ensures (x + y)[..n] == x[..n] && (x + y)[n..] == x[n..] + y
  {
  }

  /** A slice of a prefix is a slice of the whole. */
  lemma Inner<T>(x: seq<T>, n: nat, i: nat, j: nat)
    requires i <= j <= n <= |x|
    ensures x[..n][i..j] == x[i..j]
  {
  }

  /** The front of a slice. */
  lemma SliceFront<T>(x: seq<T>, i: nat, j: nat, n: nat)
    requires i + n <= j <= |x|
    ensures x[i..j][..n] == x[i..i + n] && x[i..j][n..] == x[i + n..j]
  {
  }

  /** Slices after dropping `i` elements. */
  lemma Slide<T>(x: seq<T>, i: nat, n: nat)
    requires i + n <= |x|
    ensures x[i..][..n] == x[i..i + n] && x[i..][n..] == x[i + n..]
  {
  }
}
