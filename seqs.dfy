/** Sequence helpers for the logs the model keeps. */
module Seqs {
  /** Concatenation is associative. Proofs that extend a log call this
      rather than assert the regrouping inline, which keeps their
      verification conditions small. */
  lemma AppendAssoc<T>(a: seq<T>, b: seq<T>, c: seq<T>)
    ensures (a + b) + c == a + (b + c)
  {
  }

  /** Taking the front off the suffix from k leaves the suffix from k + 1. */
  lemma DropFront<T>(s: seq<T>, k: nat)
    requires k < |s|
    ensures s[k..][0] == s[k] && s[k..][1..] == s[k + 1..]
  {
  }

  /** `n` copies of `x`. */
  function Repeat<T>(x: T, n: nat): (r: seq<T>)
    ensures |r| == n && forall i :: 0 <= i < n ==> r[i] == x
  {
    if n == 0 then [] else Repeat(x, n - 1) + [x]
  }

  /** Appending one more `x` to a log that ends in `k` copies of `x` gives
      one that ends in `k + 1` copies. */
  lemma RepeatExtend<T>(s0: seq<T>, s1: seq<T>, s2: seq<T>, x: T, k: nat)
    requires s1 == s0 + Repeat(x, k)
    requires s2 == s1 + [x]
    ensures s2 == s0 + Repeat(x, k + 1)
  {
    AppendAssoc(s0, Repeat(x, k), [x]);
  }
}
