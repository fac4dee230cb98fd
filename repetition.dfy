/** The 1D bit-flip repetition code: `n` data qubits in a line, one parity check `(i, i + 1)`
    between each pair of neighbours, and the syndrome map from an X-error vector to the
    `n - 1` check outcomes. */
module Repetition {
  import opened Bits
  import opened Results

  /** The syndrome of an error vector: check `i` reports the parity of qubits `i` and `i + 1`. */
  function Syndrome(xs: seq<int>): (r: seq<int>)
    requires |xs| >= 1
    ensures |r| == |xs| - 1 && IsBits(r)
  {
    seq(|xs| - 1, i requires 0 <= i < |xs| - 1 => Xor(xs[i], xs[i + 1]))
  }

  /** A syndrome has one bit per check. */
  lemma SyndromeShape(xs: seq<int>)
    requires |xs| >= 1
    ensures |Syndrome(xs)| == |xs| - 1 && IsBits(Syndrome(xs))
  {
  }

  /** A frozen record holding the number of data qubits. Only `NewRepetitionCode` builds one,
      so every code in use satisfies `Valid()`. */
  datatype RepetitionCode = RepetitionCode(n: int) {

    predicate Valid() {
      n >= 3
    }

    function NData(): (r: nat)
      requires Valid()
      ensures r == n && r >= 3
    {
      n
    }

    /** The code distance: a logical error needs all `n` qubits flipped. */
    function Distance(): (d: nat)
      requires Valid()
      ensures d == NData()
    {
      n
    }

    /** The adjacent pairs `(i, i + 1)` for `i` in `[0, n - 2]`, in order. */
    function Checks(): (cs: seq<(int, int)>)
      requires Valid()
      ensures |cs| == n - 1
      ensures forall i :: 0 <= i < |cs| ==> cs[i] == (i, i + 1)
    {
      seq(n - 1, i => (i, i + 1))
    }

    /** One `ZZ` stabilizer per check, in check order. */
    function Stabilizers(): (ss: seq<(string, (int, int))>)
      requires Valid()
      ensures |ss| == |Checks()| == n - 1
      ensures forall i :: 0 <= i < |ss| ==> ss[i] == ("ZZ", (i, i + 1))
    {
      var cs := Checks();
      seq(|cs|, i requires 0 <= i < |cs| => ("ZZ", cs[i]))
    }

    /** The logical X operator: an `X` on every qubit, supported on `0 .. n - 1`. */
    function LogicalX(): (op: (string, seq<int>))
      requires Valid()
      ensures |op.0| == n && |op.1| == n
      ensures forall i :: 0 <= i < n ==> op.0[i] == 'X' && op.1[i] == i
    {
      (seq(n, _ => 'X'), seq(n, i => i))
    }

    /** Normalises each entry to a bit by truthiness, rejects a vector whose length is not `n`,
        then appends one parity bit per check. */
    method MeasureSyndromeFromXErrors(xErrors: seq<int>) returns (r: Result<seq<int>>)
      requires Valid()
      ensures r.Err? <==> |xErrors| != n
      ensures r.Err? ==> r.error == LengthMismatch(n, |xErrors|)
      ensures r.Ok? ==> r.value == Syndrome(Normalize(xErrors))
      ensures r.Ok? ==> |r.value| == n - 1 && IsBits(r.value)
      ensures r.Ok? ==> forall i :: 0 <= i < n - 1 ==>
                r.value[i] == Xor(Truth(xErrors[i]), Truth(xErrors[i + 1]))
    {
      var xs := Normalize(xErrors);
      if |xs| != n {
        return Err(LengthMismatch(n, |xs|));
      }
      var syn: seq<int> := [];
      var cs := Checks();
      for k := 0 to |cs|
        invariant |syn| == k
        invariant forall m :: 0 <= m < k ==> syn[m] == Xor(xs[m], xs[m + 1])
      {
        var (i, j) := cs[k];
        syn := syn + [Xor(xs[i], xs[j])];
      }
      SyndromeShape(xs);
      assert syn == Syndrome(xs);
      return Ok(syn);
    }

    /** The syndrome of the error that flips qubit `k` alone. */
    method ExpectedSyndromeForSingleX(k: int) returns (r: Result<seq<int>>)
      requires Valid()
      ensures r.Err? <==> !(0 <= k < n)
      ensures r.Err? ==> r.error == QubitOutOfRange(k)
      ensures r.Ok? ==> r.value == Syndrome(UnitError(n, k))
      ensures r.Ok? ==> |r.value| == n - 1
      ensures r.Ok? ==> forall j :: 0 <= j < n - 1 ==>
                r.value[j] == (if j == k - 1 || j == k then 1 else 0)
    {
      if !(0 <= k < n) {
        return Err(QubitOutOfRange(k));
      }
      var x := Zeros(n);
      x := x[k := 1];
      r := MeasureSyndromeFromXErrors(x);
      UnitErrorSyndrome(n, k);
    }

    /** Re-checks the layout's lengths; raises `AssertionError` on a mismatch. */
    function Validate(): (r: Outcome)
      requires Valid()
      ensures r == Pass
    {
      if |Checks()| != n - 1 then Fail(ChecksLengthMismatch)
      else if |Stabilizers()| != n - 1 then Fail(StabilizersLengthMismatch)
      else Pass
    }
  }

  /** `RepetitionCode(n)`: construction fails exactly when `n < 3`. */
  function NewRepetitionCode(n: int): (r: Result<RepetitionCode>)
    ensures r.Ok? <==> n >= 3
    ensures r.Ok? ==> r.value.n == n && r.value.Valid()
    ensures r.Err? ==> r.error == CodeTooSmall(n)
  {
    if n < 3 then Err(CodeTooSmall(n)) else Ok(RepetitionCode(n))
  }

  /** A single flip of qubit `k` lights the checks on either side of it: one check at an end
      of the chain, two checks (`k - 1` and `k`) in the interior. */
  lemma UnitErrorSyndrome(n: nat, k: nat)
    requires 2 <= n && k < n
    ensures |Syndrome(UnitError(n, k))| == n - 1
    ensures forall j :: 0 <= j < n - 1 ==>
              Syndrome(UnitError(n, k))[j] == (if j == k - 1 || j == k then 1 else 0)
  {
  }

  /** Counting the lit checks of a single flip: one at an end, two in the interior. */
  lemma UnitErrorSyndromeWeight(n: nat, k: nat)
    requires 3 <= n && k < n
    ensures CountNonzero(Syndrome(UnitError(n, k))) == if k == 0 || k == n - 1 then 1 else 2
  {
    var s := Syndrome(UnitError(n, k));
    UnitErrorSyndrome(n, k);
    CountZeros(n - 1);
    if k == 0 {
      assert s == Zeros(n - 1)[0 := 1];
      CountUpdate(Zeros(n - 1), 0, 1);
    } else if k == n - 1 {
      assert s == Zeros(n - 1)[n - 2 := 1];
      CountUpdate(Zeros(n - 1), n - 2, 1);
    } else {
      assert s == Zeros(n - 1)[k - 1 := 1][k := 1];
      CountUpdate(Zeros(n - 1), k - 1, 1);
      CountUpdate(Zeros(n - 1)[k - 1 := 1], k, 1);
    }
  }

  /** Flipping every qubit (the support of the logical X) changes no check. */
  lemma LogicalXIsUndetectable(xs: seq<int>)
    requires |xs| >= 1
    ensures Syndrome(Complement(xs)) == Syndrome(xs)
    ensures Syndrome(Ones(|xs|)) == Zeros(|xs| - 1)
  {
  }

  /** The kernel of the syndrome map on bit vectors is exactly {no error, logical X}. */
  lemma {:induction false} SyndromeKernel(xs: seq<int>)
    requires |xs| >= 1 && IsBits(xs)
    ensures Syndrome(xs) == Zeros(|xs| - 1) <==> xs == Zeros(|xs|) || xs == Ones(|xs|)
  {
    if Syndrome(xs) == Zeros(|xs| - 1) {
      ConstantPrefix(xs, |xs|);
      if xs[0] == 0 {
        assert xs == Zeros(|xs|);
      } else {
        assert xs == Ones(|xs|);
      }
    } else {
      LogicalXIsUndetectable(xs);
      assert xs != Zeros(|xs|);
      assert xs != Ones(|xs|);
    }
  }

  /** A zero syndrome forces every qubit of a prefix to agree with qubit 0. */
  lemma {:induction false} ConstantPrefix(xs: seq<int>, m: nat)
    requires 1 <= m <= |xs| && IsBits(xs)
    requires Syndrome(xs) == Zeros(|xs| - 1)
    ensures forall i :: 0 <= i < m ==> xs[i] == xs[0]
  {
    if m > 1 {
      ConstantPrefix(xs, m - 1);
      assert Syndrome(xs)[m - 2] == 0;
    }
  }
}
