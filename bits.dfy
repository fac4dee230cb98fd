/** Bit-level helpers on Python integer lists.

    The Python code stores error vectors, correction frames and syndromes as lists of `int`; they are
    modelled as `seq<int>`. Python's `^`, `& 1` and truthiness are written out explicitly. */
module Bits {

  /** A value is a bit when it is 0 or 1. */
  predicate IsBit(v: int) {
    v == 0 || v == 1
  }

  predicate IsBits(s: seq<int>) {
    forall i :: 0 <= i < |s| ==> IsBit(s[i])
  }

  /** Python's XOR of two integers, masked to its low bit: the low bit of `a` XOR the low bit of `b`.
      Dafny's `%` is Euclidean, so `v % 2` is the low bit of `v` for negative `v` as well. */
  function Xor(a: int, b: int): int {
    if a % 2 == b % 2 then 0 else 1
  }

  /** Python's XOR of an integer with 1: toggles the low bit. */
  function FlipLow(v: int): int {
    if v % 2 == 0 then v + 1 else v - 1
  }

  /** Python truthiness of a list entry as a bit: 1 for a nonzero entry, 0 for zero. */
  function Truth(v: int): int {
    if v != 0 then 1 else 0
  }

  /** Every entry replaced by its truthiness bit. */
  function Normalize(s: seq<int>): (r: seq<int>)
    ensures |r| == |s| && IsBits(r)
    ensures IsBits(s) ==> r == s
  {
    seq(|s|, i requires 0 <= i < |s| => Truth(s[i]))
  }

  /** The all-zero list of length `n`; Python repetition by a non-positive count gives the empty list. */
  function Zeros(n: int): seq<int> {
    seq(if n > 0 then n else 0, _ => 0)
  }

  function Ones(n: nat): seq<int> {
    seq(n, _ => 1)
  }

  /** Every entry with its low bit toggled. */
  function Complement(s: seq<int>): seq<int> {
    seq(|s|, i requires 0 <= i < |s| => FlipLow(s[i]))
  }

  /** The error vector with a single flipped qubit `k`. */
  function UnitError(n: nat, k: nat): seq<int>
    requires k < n
  {
    Zeros(n)[k := 1]
  }

  /** The number of nonzero entries. */
  function CountNonzero(s: seq<int>): (c: nat)
    ensures c <= |s|
  {
    if s == [] then 0 else Truth(s[0]) + CountNonzero(s[1..])
  }

  lemma {:induction false} CountUpdate(s: seq<int>, j: nat, v: int)
    requires j < |s|
    ensures CountNonzero(s[j := v]) == CountNonzero(s) - Truth(s[j]) + Truth(v)
  {
    if j == 0 {
      assert s[j := v][1..] == s[1..];
    } else {
      assert s[j := v][1..] == s[1..][j - 1 := v];
      CountUpdate(s[1..], j - 1, v);
    }
  }

  lemma {:induction false} CountZeros(n: nat)
    ensures CountNonzero(Zeros(n)) == 0
  {
    if n > 0 {
      assert Zeros(n)[1..] == Zeros(n - 1);
      CountZeros(n - 1);
    }
  }

  lemma {:induction false} CountOnes(n: nat)
    ensures CountNonzero(Ones(n)) == n
  {
    if n > 0 {
      assert Ones(n)[1..] == Ones(n - 1);
      CountOnes(n - 1);
    }
  }

  /** On a bit vector, the ones of `s` and of its complement together fill every position. */
  lemma {:induction false} CountComplement(s: seq<int>)
    requires IsBits(s)
    ensures CountNonzero(s) + CountNonzero(Complement(s)) == |s|
  {
    if s != [] {
      assert Complement(s)[1..] == Complement(s[1..]);
      CountComplement(s[1..]);
    }
  }

  /** Two vectors with the same truthiness pattern have the same count. */
  lemma {:induction false} CountSameTruth(s: seq<int>, t: seq<int>)
    requires |s| == |t|
    requires forall i :: 0 <= i < |s| ==> Truth(s[i]) == Truth(t[i])
    ensures CountNonzero(s) == CountNonzero(t)
  {
    if s != [] {
      CountSameTruth(s[1..], t[1..]);
    }
  }
}
