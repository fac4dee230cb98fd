/** The final majority-vote decoder: a logical failure is reported when more than half of the
    `n` qubits carry an X error. */
module MajorityVote {
  import opened Bits

  datatype MajorityVoteDecoder = MajorityVoteDecoder(n: int) {

    /** Counts the nonzero entries and compares the count with `n // 2` (floor division,
        which Dafny's Euclidean `/` matches for the divisor 2). */
    function Decode(xErrors: seq<int>): (r: bool)
      ensures r ==> |xErrors| > n / 2
      ensures n < 0 ==> r
    {
      CountNonzero(xErrors) > n / 2
    }
  }

  /** No error never reads as a logical failure. */
  lemma DecodeAllZeros(dec: MajorityVoteDecoder, m: int)
    requires dec.n >= 0
    ensures !dec.Decode(Zeros(m))
  {
    CountZeros(if m > 0 then m else 0);
  }

  /** An X on every qubit always reads as a logical failure. */
  lemma DecodeAllOnes(dec: MajorityVoteDecoder)
    requires dec.n >= 1
    ensures dec.Decode(Ones(dec.n))
  {
    CountOnes(dec.n);
  }

  /** Only whether an entry is nonzero matters, not its magnitude. */
  lemma DecodeIgnoresMagnitude(dec: MajorityVoteDecoder, x: seq<int>)
    ensures dec.Decode(x) == dec.Decode(Normalize(x))
  {
    CountSameTruth(x, Normalize(x));
  }

  /** Adding an error never turns a failure verdict into a success. */
  lemma DecodeMonotone(dec: MajorityVoteDecoder, x: seq<int>, j: nat, v: int)
    requires j < |x| && x[j] == 0 && v != 0
    ensures dec.Decode(x) ==> dec.Decode(x[j := v])
  {
    CountUpdate(x, j, v);
  }

  /** For an odd number of qubits, exactly one of a bit vector and its complement fails. */
  lemma DecodeComplement(dec: MajorityVoteDecoder, x: seq<int>)
    requires dec.n % 2 == 1 && |x| == dec.n && IsBits(x)
    ensures dec.Decode(x) != dec.Decode(Complement(x))
  {
    CountComplement(x);
  }
}
