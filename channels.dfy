/** The independent bit-flip noise channel: each data qubit flips with probability `p`. */
module Channels {
  import opened Bits
  import opened Results
  import opened RandomStream

  /** A frozen record holding the flip probability (a Python float, modelled as a real). */
  datatype BitFlipChannel = BitFlipChannel(p: real) {

    predicate Valid() {
      0.0 <= p <= 1.0
    }

    /** The vector `Apply` produces: entry `i` toggled exactly when draw `cursor + i` is below `p`. */
    function Flipped(x: seq<int>, rng: Draws, cursor: nat): (r: seq<int>)
      ensures |r| == |x|
      ensures IsBits(x) ==> IsBits(r)
    {
      seq(|x|, i requires 0 <= i < |x| => if rng(cursor + i) < p then FlipLow(x[i]) else x[i])
    }

    /** Copies the vector, then walks it in index order, reading one draw per entry and
        toggling the entry when the draw is below `p`. Returns the cursor past the draws read. */
    method Apply(xErrors: seq<int>, rng: Draws, cursor: nat) returns (out: seq<int>, next: nat)
      ensures out == Flipped(xErrors, rng, cursor)
      ensures |out| == |xErrors| && next == cursor + |xErrors|
      ensures forall i :: 0 <= i < |out| ==> (out[i] != xErrors[i] <==> rng(cursor + i) < p)
    {
      var a := new int[|xErrors|](i requires 0 <= i < |xErrors| => xErrors[i]);
      for i := 0 to a.Length
        invariant forall j :: 0 <= j < i ==>
                    a[j] == if rng(cursor + j) < p then FlipLow(xErrors[j]) else xErrors[j]
        invariant forall j :: i <= j < a.Length ==> a[j] == xErrors[j]
      {
        if rng(cursor + i) < p {
          a[i] := FlipLow(a[i]);
        }
      }
      out, next := a[..], cursor + |xErrors|;
    }
  }

  /** `BitFlipChannel(p)`: construction fails exactly when `p` is outside [0, 1]. */
  function NewBitFlipChannel(p: real): (r: Result<BitFlipChannel>)
    ensures r.Ok? <==> 0.0 <= p <= 1.0
    ensures r.Ok? ==> r.value.p == p && r.value.Valid()
    ensures r.Err? ==> r.error == ProbabilityOutOfRange(p)
  {
    if !(0.0 <= p <= 1.0) then Err(ProbabilityOutOfRange(p)) else Ok(BitFlipChannel(p))
  }

  /** With `p = 0` no draw in [0, 1) is below `p`, so nothing flips. */
  lemma ZeroProbabilityKeepsInput(ch: BitFlipChannel, x: seq<int>, rng: Draws, cursor: nat)
    requires ch.p == 0.0 && UnitDraws(rng)
    ensures ch.Flipped(x, rng, cursor) == x
  {
    forall i | 0 <= i < |x| ensures ch.Flipped(x, rng, cursor)[i] == x[i] {
      assert 0.0 <= rng(cursor + i);
    }
  }

  /** With `p = 1` every draw is below `p`, so every entry flips. */
  lemma FullProbabilityFlipsAll(ch: BitFlipChannel, x: seq<int>, rng: Draws, cursor: nat)
    requires ch.p == 1.0 && UnitDraws(rng)
    ensures ch.Flipped(x, rng, cursor) == Complement(x)
  {
    forall i | 0 <= i < |x| ensures ch.Flipped(x, rng, cursor)[i] == Complement(x)[i] {
      assert rng(cursor + i) < 1.0;
    }
  }
}
