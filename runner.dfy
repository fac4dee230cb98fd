/** The per-shot error-tracking loop of the repetition code.

    Each round applies noise to the physical error vector, measures the syndrome of the
    effective error (physical XOR correction frame), decodes the CHANGE of syndrome since the
    previous round into data-qubit flips with a greedy left-to-right rule, and XORs those flips
    into the frame. At the end of the shot the majority vote of the effective error gives the
    verdict, and the estimator counts failing shots. */
module Runner {
  import opened Bits
  import opened Results
  import opened RandomStream
  import opened Repetition
  import opened Channels
  import opened MajorityVote

  // ---------------------------------------------------------------------------------------
  // xor_bits / apply_mask
  // ---------------------------------------------------------------------------------------

  /** `xor_bits`: the low bits of `a` and `b` XORed position by position, over the shorter length
      (the pairing stops where either list ends). */
  function XorBits(a: seq<int>, b: seq<int>): (r: seq<int>)
    ensures |r| == if |a| <= |b| then |a| else |b|
    ensures IsBits(r)
    ensures forall i :: 0 <= i < |r| ==> (r[i] == 1 <==> a[i] % 2 != b[i] % 2)
  {
    var m := if |a| <= |b| then |a| else |b|;
    seq(m, i requires 0 <= i < m => Xor(a[i], b[i]))
  }

  /** `apply_mask` has the same body as `xor_bits`: it applies mask `m` to vector `x`. */
  function ApplyMask(x: seq<int>, m: seq<int>): (r: seq<int>)
    ensures |m| >= |x| ==> |r| == |x|
    ensures IsBits(r)
  {
    XorBits(x, m)
  }

  /** Applying the same mask twice gives back the original bit vector. */
  lemma ApplyMaskInvolution(x: seq<int>, m: seq<int>)
    requires IsBits(x) && |m| >= |x|
    ensures ApplyMask(ApplyMask(x, m), m) == x
  {
    var once := ApplyMask(x, m);
    assert |ApplyMask(once, m)| == |x|;
    forall i | 0 <= i < |x| ensures ApplyMask(once, m)[i] == x[i] {
      assert once[i] == Xor(x[i], m[i]);
    }
  }

  lemma XorBitsAssociative(a: seq<int>, b: seq<int>, c: seq<int>)
    requires |a| == |b| == |c|
    ensures XorBits(a, XorBits(b, c)) == XorBits(XorBits(a, b), c)
  {
  }

  /** XOR with zeros leaves a bit vector unchanged, on either side. */
  lemma XorBitsZeros(a: seq<int>)
    requires IsBits(a)
    ensures XorBits(a, Zeros(|a|)) == a && XorBits(Zeros(|a|), a) == a
  {
  }

  /** Cancelling `b` out of `a XOR b`. */
  lemma XorBitsCancel(a: seq<int>, b: seq<int>)
    requires IsBits(a) && |a| == |b|
    ensures XorBits(b, XorBits(a, b)) == a
  {
  }

  /** The syndrome map is linear under XOR. */
  lemma SyndromeLinear(a: seq<int>, b: seq<int>)
    requires |a| == |b| >= 1
    ensures Syndrome(XorBits(a, b)) == XorBits(Syndrome(a), Syndrome(b))
  {
  }

  // ---------------------------------------------------------------------------------------
  // infer_data_flips_from_delta
  // ---------------------------------------------------------------------------------------

  /** What the scan decides: the data qubits it toggles, in order, and the cursor after the
      coin draws it read. */
  datatype Decision = Decision(toggles: seq<int>, cursor: nat)

  /** What the scan does at one index: move on, or resolve the defect there by toggling data
      qubit `target` and continuing at index `next` with the coin cursor at `cursor`. */
  datatype Move = Skip | Resolve(target: int, next: nat, cursor: nat)

  /** The four rules in priority order, applied at a defect `delta[i] != 0`: adjacent pair,
      left edge, right edge, and a coin `rng(cursor) < 0.5` for an isolated interior defect. */
  function Rule(delta: seq<int>, n: int, rng: Draws, i: nat, cursor: nat): (m: Move)
    requires |delta| <= n && i < |delta|
    ensures m.Resolve? ==> 0 <= m.target < n && i < m.next <= |delta| && cursor <= m.cursor <= cursor + 1
    ensures m.Resolve? ==> m.next == i + 1 || (m.next == i + 2 && m.cursor == cursor)
    ensures m.Resolve? && m.cursor == cursor + 1 ==> m.next == i + 1
    ensures m.Skip? <==> delta[i] == 0
    ensures m.Resolve? && m.next == i + 2 ==> delta[i + 1] == 1 && m.target == i + 1
    ensures m.Resolve? && m.cursor == cursor + 1 ==>
              0 < i < |delta| - 1 && delta[i + 1] != 1 && (m.target == i || m.target == i + 1)
    ensures m.Resolve? && m.cursor == cursor && m.next == i + 1 ==>
              (i == 0 && m.target == 0) || (i == |delta| - 1 && m.target == n - 1)
  {
    if delta[i] == 0 then Skip
    else if i < |delta| - 1 && delta[i + 1] == 1 then Resolve(i + 1, i + 2, cursor)
    else if i == 0 then Resolve(0, i + 1, cursor)
    else if i == |delta| - 1 then Resolve(n - 1, i + 1, cursor)
    else Resolve(if rng(cursor) < 0.5 then i else i + 1, i + 1, cursor + 1)
  }

  /** The left-to-right scan of `delta` from index `i`. */
  function Scan(delta: seq<int>, n: int, rng: Draws, i: nat, cursor: nat): (r: Decision)
    requires |delta| <= n && i <= |delta|
    ensures Within(r.toggles, i, n)
    ensures cursor <= r.cursor <= cursor + (|delta| - i)
    decreases |delta| - i
  {
    if i == |delta| then Decision([], cursor)
    else
      match Rule(delta, n, rng, i, cursor)
      case Skip => Scan(delta, n, rng, i + 1, cursor)
      case Resolve(t, next, c) =>
        var rest := Scan(delta, n, rng, next, c);
        Decision([t] + rest.toggles, rest.cursor)
  }

  /** Every position in `ts` lies in `[lo, hi)`. */
  predicate Within(ts: seq<int>, lo: int, hi: int) {
    forall k :: 0 <= k < |ts| ==> lo <= ts[k] < hi
  }

  /** Toggles the low bit of entry `t` in place. */
  function Toggle(f: seq<int>, t: int): (r: seq<int>)
    requires 0 <= t < |f|
    ensures |r| == |f| && (IsBits(f) ==> IsBits(r))
  {
    f[t := FlipLow(f[t])]
  }

  /** Toggles the positions `ts` of `f`, one after another. */
  function ToggleAll(f: seq<int>, ts: seq<int>): (r: seq<int>)
    requires Within(ts, 0, |f|)
    ensures |r| == |f|
    ensures IsBits(f) ==> IsBits(r)
    decreases |ts|
  {
    if ts == [] then f else ToggleAll(Toggle(f, ts[0]), ts[1..])
  }

  lemma ToggleAllCons(f: seq<int>, t: int, rest: seq<int>)
    requires 0 <= t < |f| && Within(rest, 0, |f|)
    ensures ToggleAll(f, [t] + rest) == ToggleAll(Toggle(f, t), rest)
  {
    assert ([t] + rest)[1..] == rest;
  }

  /** The flip vector the decoder returns for `delta`. */
  function Flips(delta: seq<int>, n: int, rng: Draws, cursor: nat): (r: seq<int>)
    requires |delta| <= n
    ensures |r| == n && IsBits(r)
  {
    ToggleAll(Zeros(n), Scan(delta, n, rng, 0, cursor).toggles)
  }

  /** One pass of the scan loop at a defect-or-not index `i`: the four rules in priority
      order, clearing the defects resolved in the working copy `d`, toggling `flips` in place
      and moving the index by 2 after a pair and by 1 otherwise. What it does is exactly what
      `Rule` decides. */
  method ScanStep(delta: seq<int>, n: int, rng: Draws, d: seq<int>, f: seq<int>, i: nat, c: nat)
    returns (d': seq<int>, f': seq<int>, i': nat, c': nat)
    requires |d| == |delta| <= n && i < |d| && |f| == n
    requires forall k :: i <= k < |d| ==> d[k] == delta[k]
    ensures |d'| == |d| && |f'| == n
    ensures forall k :: i' <= k < |d'| ==> d'[k] == delta[k]
    ensures Rule(delta, n, rng, i, c).Skip? ==> f' == f && i' == i + 1 && c' == c
    ensures var m := Rule(delta, n, rng, i, c);
      m.Resolve? ==> f' == Toggle(f, m.target) && i' == m.next && c' == m.cursor
    ensures i' <= |delta|
    ensures ToggleAll(f', Scan(delta, n, rng, i', c').toggles) == ToggleAll(f, Scan(delta, n, rng, i, c).toggles)
    ensures Scan(delta, n, rng, i', c').cursor == Scan(delta, n, rng, i, c).cursor
  {
    ScanAdvance(delta, n, rng, i, c, f);
    d', f', i', c' := d, f, i, c;
    if d[i] == 0 {
      i' := i + 1;
    } else if i < |d| - 1 && d[i + 1] == 1 {
      f' := f[i + 1 := FlipLow(f[i + 1])];
      d' := d[i := 0][i + 1 := 0];
      i' := i + 2;
    } else if i == 0 {
      f' := f[0 := FlipLow(f[0])];
      d' := d[i := 0];
      i' := i + 1;
    } else if i == |d| - 1 {
      f' := f[n - 1 := FlipLow(f[n - 1])];
      d' := d[i := 0];
      i' := i + 1;
    } else {
      if rng(c) < 0.5 {
        f' := f[i := FlipLow(f[i])];
      } else {
        f' := f[i + 1 := FlipLow(f[i + 1])];
      }
      c' := c + 1;
      d' := d[i := 0];
      i' := i + 1;
    }
  }

  /** `infer_data_flips_from_delta`: copies `delta` into `d`, then scans it left to right from
      a fresh all-zero `flips`. The caller's `delta` is a value and stays as it was. */
  method InferDataFlipsFromDelta(delta: seq<int>, n: int, rng: Draws, cursor: nat)
    returns (flips: seq<int>, next: nat)
    requires |delta| <= n
    ensures flips == Flips(delta, n, rng, cursor)
    ensures next == Scan(delta, n, rng, 0, cursor).cursor
    ensures |flips| == n && IsBits(flips)
    ensures cursor <= next <= cursor + |delta|
  {
    var d := delta;
    var f := Zeros(n);
    ghost var total := Scan(delta, n, rng, 0, cursor);
    var i: nat, c: nat := 0, cursor;
    while i < |d|
      invariant i <= |d| == |delta| && |f| == n
      invariant forall k :: i <= k < |d| ==> d[k] == delta[k]
      invariant ToggleAll(f, Scan(delta, n, rng, i, c).toggles) == ToggleAll(Zeros(n), total.toggles)
      invariant Scan(delta, n, rng, i, c).cursor == total.cursor
      decreases |d| - i
    {
      d, f, i, c := ScanStep(delta, n, rng, d, f, i, c);
    }
    assert IsBits(Zeros(n));
    flips, next := f, c;
  }

  /** One step of the scan as the loop takes it: skip, or toggle the rule's target and go on
      from the rule's next index and cursor. */
  lemma ScanAdvance(delta: seq<int>, n: int, rng: Draws, i: nat, c: nat, f: seq<int>)
    requires |delta| <= n && i < |delta| && |f| == n
    ensures var m := Rule(delta, n, rng, i, c);
      m.Skip? ==> Scan(delta, n, rng, i, c) == Scan(delta, n, rng, i + 1, c)
    ensures var m := Rule(delta, n, rng, i, c);
      m.Resolve? ==>
        ToggleAll(f, Scan(delta, n, rng, i, c).toggles)
          == ToggleAll(Toggle(f, m.target), Scan(delta, n, rng, m.next, m.cursor).toggles) &&
        Scan(delta, n, rng, i, c).cursor == Scan(delta, n, rng, m.next, m.cursor).cursor
  {
    var m := Rule(delta, n, rng, i, c);
    if m.Resolve? {
      ToggleAllCons(f, m.target, Scan(delta, n, rng, m.next, m.cursor).toggles);
    }
  }

  // ---------------------------------------------------------------------------------------
  // Properties of the flip decoder
  // ---------------------------------------------------------------------------------------

  /** Stretches of zeros are skipped without toggling or drawing. */
  lemma {:induction false} ScanOverZeros(delta: seq<int>, n: int, rng: Draws, i: nat, m: nat, c: nat)
    requires |delta| <= n && i <= m <= |delta|
    requires forall k :: i <= k < m ==> delta[k] == 0
    ensures Scan(delta, n, rng, i, c) == Scan(delta, n, rng, m, c)
    decreases m - i
  {
    if i < m {
      assert Rule(delta, n, rng, i, c) == Skip;
      ScanOverZeros(delta, n, rng, i + 1, m, c);
    }
  }

  /** An all-zero delta toggles nothing and draws no coin. */
  lemma ZeroDeltaNoFlips(delta: seq<int>, n: int, rng: Draws, c: nat)
    requires |delta| <= n && forall k :: 0 <= k < |delta| ==> delta[k] == 0
    ensures Scan(delta, n, rng, 0, c) == Decision([], c)
    ensures Flips(delta, n, rng, c) == Zeros(n)
  {
    ScanOverZeros(delta, n, rng, 0, |delta|, c);
  }

  /** The positions are strictly increasing, hence pairwise distinct. */
  predicate Increasing(ts: seq<int>) {
    forall a, b :: 0 <= a < b < |ts| ==> ts[a] < ts[b]
  }

  /** On a 0/1 delta the scan toggles strictly increasing positions; from a zero entry it
      toggles only positions to the right of it. */
  lemma {:induction false} ScanIncreasing(delta: seq<int>, n: int, rng: Draws, i: nat, c: nat)
    requires IsBits(delta) && |delta| <= n && i <= |delta|
    ensures Increasing(Scan(delta, n, rng, i, c).toggles)
    ensures i < |delta| && delta[i] == 0 ==> Within(Scan(delta, n, rng, i, c).toggles, i + 1, n)
    decreases |delta| - i
  {
    if i < |delta| {
      var m := Rule(delta, n, rng, i, c);
      if m.Skip? {
        ScanIncreasing(delta, n, rng, i + 1, c);
      } else {
        ScanIncreasing(delta, n, rng, m.next, m.cursor);
        var rest := Scan(delta, n, rng, m.next, m.cursor).toggles;
        assert Scan(delta, n, rng, i, c).toggles == [m.target] + rest;
        if m.next == |delta| {
          assert rest == [];
        } else if m.target == m.next {
          assert delta[m.next] == 0;
        }
        assert Within(rest, m.target + 1, n);
      }
    }
  }

  /** Toggling distinct positions of a bit vector flips exactly those positions. */
  lemma {:induction false} ToggleDistinct(f: seq<int>, ts: seq<int>)
    requires IsBits(f) && Within(ts, 0, |f|) && Increasing(ts)
    ensures forall k :: 0 <= k < |f| ==> ToggleAll(f, ts)[k] == if k in ts then 1 - f[k] else f[k]
    decreases |ts|
  {
    if ts != [] {
      ToggleDistinct(Toggle(f, ts[0]), ts[1..]);
      assert ts[0] !in ts[1..];
      assert forall k :: k in ts <==> k == ts[0] || k in ts[1..];
    }
  }

  /** On a 0/1 delta no data qubit is toggled twice: the flip vector is the indicator of the
      toggled positions. */
  lemma FlipsToggleEachQubitOnce(delta: seq<int>, n: int, rng: Draws, c: nat)
    requires IsBits(delta) && |delta| <= n
    ensures Increasing(Scan(delta, n, rng, 0, c).toggles)
    ensures forall k :: 0 <= k < n ==>
              Flips(delta, n, rng, c)[k] == if k in Scan(delta, n, rng, 0, c).toggles then 1 else 0
  {
    ScanIncreasing(delta, n, rng, 0, c);
    ToggleDistinct(Zeros(n), Scan(delta, n, rng, 0, c).toggles);
  }

  /** The scan from `i` over a 0/1 delta that draws no coin: if the flips so far explain
      `delta[..i]` and nothing at or right of `i` is flipped yet, the final flips explain all of
      `delta`. */
  lemma {:induction false} ScanMatchesDelta(delta: seq<int>, n: int, rng: Draws, i: nat, c: nat, f: seq<int>)
    requires IsBits(delta) && |delta| == n - 1 && n >= 2 && i <= |delta| && |f| == n && IsBits(f)
    requires Scan(delta, n, rng, i, c).cursor == c
    requires forall j :: 0 <= j < i ==> Xor(f[j], f[j + 1]) == delta[j]
    requires i < |delta| ==> forall k :: i <= k < n ==> f[k] == 0
    ensures Syndrome(ToggleAll(f, Scan(delta, n, rng, i, c).toggles)) == delta
    decreases |delta| - i
  {
    if i == |delta| {
      assert Syndrome(f) == delta;
    } else {
      var m := Rule(delta, n, rng, i, c);
      if m.Skip? {
        ScanMatchesDelta(delta, n, rng, i + 1, c, f);
      } else if m.cursor == c {
        var rest := Scan(delta, n, rng, m.next, m.cursor).toggles;
        var f2 := Toggle(f, m.target);
        ToggleAllCons(f, m.target, rest);
        ScanMatchesDelta(delta, n, rng, m.next, m.cursor, f2);
      } else {
        assert false;
      }
    }
  }

  /** When every defect is resolved by the pair or edge rules (no coin is drawn), the flips
      have exactly the syndrome `delta`. */
  lemma CoinFreeFlipsExplainDelta(delta: seq<int>, n: int, rng: Draws, c: nat)
    requires IsBits(delta) && |delta| == n - 1 && n >= 2
    requires Scan(delta, n, rng, 0, c).cursor == c
    ensures Syndrome(Flips(delta, n, rng, c)) == delta
  {
    ScanMatchesDelta(delta, n, rng, 0, c, Zeros(n));
  }

  /** The syndrome change of a single X error is decoded back to that error, with no coin. */
  lemma SingleErrorInferred(n: nat, k: nat, rng: Draws, c: nat)
    requires 3 <= n && k < n
    ensures Scan(Syndrome(UnitError(n, k)), n, rng, 0, c) == Decision([k], c)
    ensures Flips(Syndrome(UnitError(n, k)), n, rng, c) == UnitError(n, k)
  {
    var delta := Syndrome(UnitError(n, k));
    UnitErrorSyndrome(n, k);
    if k == 0 {
      assert Rule(delta, n, rng, 0, c) == Resolve(0, 1, c);
      ScanOverZeros(delta, n, rng, 1, |delta|, c);
    } else if k == n - 1 {
      ScanOverZeros(delta, n, rng, 0, n - 2, c);
      assert Rule(delta, n, rng, n - 2, c) == Resolve(n - 1, n - 1, c);
    } else {
      ScanOverZeros(delta, n, rng, 0, k - 1, c);
      assert Rule(delta, n, rng, k - 1, c) == Resolve(k, k + 1, c);
      ScanOverZeros(delta, n, rng, k + 1, |delta|, c);
    }
    assert ToggleAll(Zeros(n), [k]) == Toggle(Zeros(n), k);
  }

  // ---------------------------------------------------------------------------------------
  // run_single_shot
  // ---------------------------------------------------------------------------------------

  /** The variables of one shot between rounds: the accumulated physical X errors, the
      correction frame, the syndrome recorded after the previous round, and the position of
      the next unread draw. */
  datatype ShotState = ShotState(phys: seq<int>, frame: seq<int>, synPrev: seq<int>, cursor: nat)

  /** Shapes every state of a shot on an n-qubit code has. */
  predicate WellFormed(s: ShotState, n: int) {
    |s.phys| == n && |s.frame| == n && |s.synPrev| == n - 1
    && IsBits(s.phys) && IsBits(s.frame) && IsBits(s.synPrev)
  }

  /** A state that records the syndrome of its own effective error (physical XOR frame). */
  predicate Tracked(s: ShotState) {
    |s.phys| >= 1 && |s.frame| == |s.phys| && s.synPrev == Syndrome(ApplyMask(s.phys, s.frame))
  }

  /** The noise half of a round: every entry of the physical error vector is offered to the
      channel, reading one draw each. */
  function Noisy(noise: BitFlipChannel, rng: Draws, s: ShotState): (t: ShotState)
    ensures |t.phys| == |s.phys| && (IsBits(s.phys) ==> IsBits(t.phys))
    ensures t.frame == s.frame && t.synPrev == s.synPrev && t.cursor == s.cursor + |s.phys|
  {
    ShotState(noise.Flipped(s.phys, rng, s.cursor), s.frame, s.synPrev, s.cursor + |s.phys|)
  }

  /** The decoding half of a round: the syndrome change since the previous round is turned
      into data flips, which are XORed into the frame, and the new syndrome is recorded. */
  function Correct(n: int, rng: Draws, s: ShotState): (t: ShotState)
    requires n >= 3 && WellFormed(s, n)
    ensures WellFormed(t, n) && t.phys == s.phys
    ensures s.cursor <= t.cursor <= s.cursor + n - 1
  {
    var delta := XorBits(s.synPrev, Syndrome(ApplyMask(s.phys, s.frame)));
    var dec := Scan(delta, n, rng, 0, s.cursor);
    var frame := ApplyMask(s.frame, ToggleAll(Zeros(n), dec.toggles));
    SyndromeShape(ApplyMask(s.phys, frame));
    ShotState(s.phys, frame, Syndrome(ApplyMask(s.phys, frame)), dec.cursor)
  }

  /** After the decoding step the recorded syndrome is that of the corrected effective error. */
  lemma CorrectTracked(n: int, rng: Draws, s: ShotState)
    requires n >= 3 && WellFormed(s, n)
    ensures Tracked(Correct(n, rng, s))
  {
  }

  /** One iteration of the depth loop: noise, then, when a decoder is given, correction. */
  function Round(code: RepetitionCode, noise: BitFlipChannel, decoding: bool, rng: Draws, s: ShotState): (t: ShotState)
    requires code.Valid() && WellFormed(s, code.n)
    ensures WellFormed(t, code.n)
    ensures s.cursor + code.n <= t.cursor <= s.cursor + 2 * code.n - 1
    ensures !decoding ==> t.frame == s.frame && t.synPrev == s.synPrev && t.cursor == s.cursor + code.n
  {
    if decoding then Correct(code.n, rng, Noisy(noise, rng, s)) else Noisy(noise, rng, s)
  }

  /** The all-zero state a shot starts from. */
  function Initial(n: int, cursor: nat): (s: ShotState)
    ensures n >= 1 ==> WellFormed(s, n)
    ensures s.cursor == cursor
  {
    ShotState(Zeros(n), Zeros(n), Zeros(n - 1), cursor)
  }

  /** The state after `k` rounds of a shot whose first draw is at `cursor`. */
  function Rounds(code: RepetitionCode, noise: BitFlipChannel, decoding: bool, rng: Draws, k: nat, cursor: nat): (s: ShotState)
    requires code.Valid()
    ensures WellFormed(s, code.n) && cursor <= s.cursor
    ensures !decoding ==> s.frame == Zeros(code.n) && s.synPrev == Zeros(code.n - 1)
    decreases k
  {
    if k == 0 then Initial(code.n, cursor)
    else Round(code, noise, decoding, rng, Rounds(code, noise, decoding, rng, k - 1, cursor))
  }

  /** Each round reads n draws for the noise and at most n - 1 coins; without a decoder
      exactly n. */
  lemma {:induction false} RoundsDrawCount(code: RepetitionCode, noise: BitFlipChannel, decoding: bool, rng: Draws, k: nat, cursor: nat)
    requires code.Valid()
    ensures var s := Rounds(code, noise, decoding, rng, k, cursor);
      cursor + k * code.n <= s.cursor <= cursor + k * (2 * code.n - 1)
    ensures !decoding ==> Rounds(code, noise, decoding, rng, k, cursor).cursor == cursor + k * code.n
  {
    if k > 0 {
      var j: nat := k - 1;
      RoundsDrawCount(code, noise, decoding, rng, j, cursor);
      var before := Rounds(code, noise, decoding, rng, j, cursor);
      assert Rounds(code, noise, decoding, rng, k, cursor) == Round(code, noise, decoding, rng, before);
      MulStep(k, code.n);
      MulStep(k, 2 * code.n - 1);
    }
  }

  lemma MulStep(k: nat, m: int)
    requires k >= 1
    ensures k * m == (k - 1) * m + m
  {
  }

  /** What a shot reports: whether it ended in a logical failure, and the position of the
      next unread draw. */
  datatype Verdict = Verdict(failed: bool, next: nat)

  /** The outcome of one shot: whether the majority vote over the final effective error
      reports a logical failure, and the position of the next unread draw. */
  function Shot(code: RepetitionCode, noise: BitFlipChannel, decoder: Option<MajorityVoteDecoder>,
                depth: int, rng: Draws, cursor: nat): (r: Verdict)
    requires code.Valid()
    ensures cursor <= r.next
  {
    var s := Rounds(code, noise, decoder.Some?, rng, if depth > 0 then depth else 0, cursor);
    var final := if decoder.Some? then ApplyMask(s.phys, s.frame) else s.phys;
    Verdict(MajorityVoteDecoder(code.n).Decode(final), s.cursor)
  }

  /** A shot of depth zero (or less) runs no round, reads no draw and does not fail. */
  lemma ShotWithoutRounds(code: RepetitionCode, noise: BitFlipChannel, decoder: Option<MajorityVoteDecoder>,
                          depth: int, rng: Draws, cursor: nat)
    requires code.Valid() && depth <= 0
    ensures !Shot(code, noise, decoder, depth, rng, cursor).failed
    ensures Shot(code, noise, decoder, depth, rng, cursor).next == cursor
  {
    XorBitsZeros(Zeros(code.n));
    DecodeAllZeros(MajorityVoteDecoder(code.n), code.n);
  }

  /** A shot of `depth` rounds reads n draws per round for the noise and at most n - 1 coins. */
  lemma ShotDrawCount(code: RepetitionCode, noise: BitFlipChannel, decoder: Option<MajorityVoteDecoder>,
                      depth: int, rng: Draws, cursor: nat)
    requires code.Valid() && depth > 0
    ensures var next := Shot(code, noise, decoder, depth, rng, cursor).next;
      cursor + depth * code.n <= next <= cursor + depth * (2 * code.n - 1)
      && (decoder.None? ==> next == cursor + depth * code.n)
  {
    RoundsDrawCount(code, noise, decoder.Some?, rng, depth, cursor);
  }

  /** The decoder branch of the shot loop body: measure, take the syndrome change, infer
      flips, update the frame and record the new syndrome. */
  method CorrectRound(code: RepetitionCode, rng: Draws, phys: seq<int>, frame: seq<int>, synPrev: seq<int>, c: nat)
    returns (frame': seq<int>, synPrev': seq<int>, c': nat)
    requires code.Valid() && WellFormed(ShotState(phys, frame, synPrev, c), code.n)
    ensures ShotState(phys, frame', synPrev', c') == Correct(code.n, rng, ShotState(phys, frame, synPrev, c))
  {
    var measured := code.MeasureSyndromeFromXErrors(ApplyMask(phys, frame));
    var delta := XorBits(synPrev, measured.value);
    var flips;
    flips, c' := InferDataFlipsFromDelta(delta, code.n, rng, c);
    frame' := ApplyMask(frame, flips);
    measured := code.MeasureSyndromeFromXErrors(ApplyMask(phys, frame'));
    synPrev' := measured.value;
  }

  /** One iteration of the shot loop body. */
  method PlayRound(code: RepetitionCode, noise: BitFlipChannel, decoding: bool, rng: Draws,
                   phys: seq<int>, frame: seq<int>, synPrev: seq<int>, c: nat, ghost r: nat, ghost cursor: nat)
    returns (phys': seq<int>, frame': seq<int>, synPrev': seq<int>, c': nat)
    requires code.Valid() && ShotState(phys, frame, synPrev, c) == Rounds(code, noise, decoding, rng, r, cursor)
    ensures ShotState(phys', frame', synPrev', c') == Round(code, noise, decoding, rng, ShotState(phys, frame, synPrev, c))
    ensures ShotState(phys', frame', synPrev', c') == Rounds(code, noise, decoding, rng, r + 1, cursor)
  {
    phys', c' := noise.Apply(phys, rng, c);
    frame', synPrev' := frame, synPrev;
    assert ShotState(phys', frame', synPrev', c') == Noisy(noise, rng, ShotState(phys, frame, synPrev, c));
    if decoding {
      frame', synPrev', c' := CorrectRound(code, rng, phys', frame, synPrev, c');
    }
    RoundsStep(code, noise, decoding, rng, r, cursor);
  }


  /** One more round is one more application of `Round`. */
  lemma RoundsStep(code: RepetitionCode, noise: BitFlipChannel, decoding: bool, rng: Draws, k: nat, cursor: nat)
    requires code.Valid()
    ensures Rounds(code, noise, decoding, rng, k + 1, cursor)
         == Round(code, noise, decoding, rng, Rounds(code, noise, decoding, rng, k, cursor))
  {
  }

  /** The depth loop of `run_single_shot`: `rounds` rounds from the all-zero state. */
  method PlayRounds(code: RepetitionCode, noise: BitFlipChannel, decoding: bool, rounds: nat, rng: Draws, cursor: nat)
    returns (phys: seq<int>, frame: seq<int>, synPrev: seq<int>, c: nat)
    requires code.Valid()
    ensures ShotState(phys, frame, synPrev, c) == Rounds(code, noise, decoding, rng, rounds, cursor)
  {
    var n := code.NData();
    phys, frame, synPrev, c := Zeros(n), Zeros(n), Zeros(n - 1), cursor;
    assert ShotState(phys, frame, synPrev, c) == Initial(code.n, cursor);
    for r := 0 to rounds
      invariant ShotState(phys, frame, synPrev, c) == Rounds(code, noise, decoding, rng, r, cursor)
    {
      phys, frame, synPrev, c := PlayRound(code, noise, decoding, rng, phys, frame, synPrev, c, r, cursor);
    }
  }

  /** `run_single_shot`: the shot loop, drawing from `rng` starting at `cursor`. A depth of
      zero or less runs no round. */
  method RunSingleShot(code: RepetitionCode, noise: BitFlipChannel, decoder: Option<MajorityVoteDecoder>,
                       depth: int, rng: Draws, cursor: nat) returns (failed: bool, next: nat)
    requires code.Valid()
    ensures failed == Shot(code, noise, decoder, depth, rng, cursor).failed
    ensures next == Shot(code, noise, decoder, depth, rng, cursor).next
  {
    var n := code.NData();
    var phys, frame, synPrev, c := PlayRounds(code, noise, decoder.Some?, if depth > 0 then depth else 0, rng, cursor);
    var final := if decoder.Some? then ApplyMask(phys, frame) else phys;
    failed := MajorityVoteDecoder(n).Decode(final);
    next := c;
  }

  // ---------------------------------------------------------------------------------------
  // estimate_logical_failure_probability (the failure count)
  // ---------------------------------------------------------------------------------------

  /** The running totals of the estimator: failing shots so far and the next unread draw. */
  datatype Tally = Tally(failures: nat, next: nat)

  /** The number of failing shots among the first `shots` shots on one stream, the first
      starting at `cursor`, and the cursor after the last of them. */
  function FailureCount(code: RepetitionCode, noise: BitFlipChannel, decoder: Option<MajorityVoteDecoder>,
                        depth: int, shots: nat, rng: Draws, cursor: nat): (r: Tally)
    requires code.Valid()
    ensures r.failures <= shots
    ensures cursor <= r.next
    decreases shots
  {
    if shots == 0 then Tally(0, cursor)
    else
      var before := FailureCount(code, noise, decoder, depth, shots - 1, rng, cursor);
      var shot := Shot(code, noise, decoder, depth, rng, before.next);
      Tally(before.failures + (if shot.failed then 1 else 0), shot.next)
  }

  /** One iteration of the estimator's loop: the next shot, counted into `failures` when it
      fails. After `k` shots the count and the cursor are those of the first `k` shots. */
  method CountShot(code: RepetitionCode, noise: BitFlipChannel, decoder: Option<MajorityVoteDecoder>,
                   depth: int, rng: Draws, failures: nat, c: nat, ghost k: nat)
    returns (failures': nat, c': nat)
    requires code.Valid() && Tally(failures, c) == FailureCount(code, noise, decoder, depth, k, rng, 0)
    ensures Tally(failures', c') == FailureCount(code, noise, decoder, depth, k + 1, rng, 0)
  {
    var failed;
    failed, c' := RunSingleShot(code, noise, decoder, depth, rng, c);
    failures' := failures;
    if failed {
      failures' := failures' + 1;
    }
  }

  /** The loop of `estimate_logical_failure_probability`: runs `shots` shots on one stream
      (the stream of `random.Random(seed)`, read from its start) and counts the failures. */
  method CountFailures(code: RepetitionCode, noise: BitFlipChannel, decoder: Option<MajorityVoteDecoder>,
                       depth: int, shots: int, rng: Draws) returns (failures: nat)
    requires code.Valid()
    ensures failures == FailureCount(code, noise, decoder, depth, if shots > 0 then shots else 0, rng, 0).failures
  {
    var total: nat := if shots > 0 then shots else 0;
    var c: nat := 0;
    var k: nat := 0;
    failures := 0;
    while k < total
      invariant k <= total
      invariant Tally(failures, c) == FailureCount(code, noise, decoder, depth, k, rng, 0)
    {
      failures, c := CountShot(code, noise, decoder, depth, rng, failures, c, k);
      k := k + 1;
    }
  }

  // ---------------------------------------------------------------------------------------
  // Properties of a shot
  // ---------------------------------------------------------------------------------------

  /** With a decoder, the recorded syndrome is always the syndrome of the current effective
      error: at the start (both are zero) and after every round. */
  lemma RoundsTracked(code: RepetitionCode, noise: BitFlipChannel, rng: Draws, k: nat, cursor: nat)
    requires code.Valid()
    ensures Tracked(Rounds(code, noise, true, rng, k, cursor))
  {
    if k == 0 {
      XorBitsZeros(Zeros(code.n));
      assert Syndrome(Zeros(code.n)) == Zeros(code.n - 1);
    } else {
      CorrectTracked(code.n, rng, Noisy(noise, rng, Rounds(code, noise, true, rng, k - 1, cursor)));
    }
  }

  /** An effective error that is no error or the logical X, with nothing recorded, passes
      through the decoding step untouched: the decoder cannot see a logical error. */
  lemma CorrectIgnoresCodewords(n: int, rng: Draws, s: ShotState)
    requires n >= 3 && (s.phys == Zeros(n) || s.phys == Ones(n))
    requires s.frame == Zeros(n) && s.synPrev == Zeros(n - 1)
    ensures Correct(n, rng, s) == s
  {
    XorBitsZeros(s.phys);
    LogicalXIsUndetectable(s.phys);
    assert Syndrome(s.phys) == Zeros(n - 1);
    XorBitsZeros(Zeros(n - 1));
    var delta := XorBits(s.synPrev, Syndrome(ApplyMask(s.phys, s.frame)));
    assert delta == Zeros(n - 1);
    ZeroDeltaNoFlips(delta, n, rng, s.cursor);
    XorBitsZeros(Zeros(n));
  }

  /** A round that starts from a codeword effective error (frame and recorded syndrome zero)
      and whose noise again leaves a codeword is just that noise: decoding changes nothing. */
  lemma CodewordRound(code: RepetitionCode, noise: BitFlipChannel, decoding: bool, rng: Draws, s: ShotState)
    requires code.Valid() && WellFormed(s, code.n)
    requires s.frame == Zeros(code.n) && s.synPrev == Zeros(code.n - 1)
    requires noise.Flipped(s.phys, rng, s.cursor) == Zeros(code.n) || noise.Flipped(s.phys, rng, s.cursor) == Ones(code.n)
    ensures Round(code, noise, decoding, rng, s) == Noisy(noise, rng, s)
  {
    if decoding {
      CorrectIgnoresCodewords(code.n, rng, Noisy(noise, rng, s));
    }
  }

  /** With p = 0 nothing ever flips: after any number of rounds, with or without decoding,
      the physical error, the frame and the recorded syndrome are all zero. */
  lemma {:induction false} ZeroNoiseRounds(code: RepetitionCode, noise: BitFlipChannel, decoding: bool,
                                           rng: Draws, k: nat, cursor: nat)
    requires code.Valid() && noise.p == 0.0 && UnitDraws(rng)
    ensures var s := Rounds(code, noise, decoding, rng, k, cursor);
      s.phys == Zeros(code.n) && s.frame == Zeros(code.n) && s.synPrev == Zeros(code.n - 1)
  {
    if k > 0 {
      var j: nat := k - 1;
      ZeroNoiseRounds(code, noise, decoding, rng, j, cursor);
      var before := Rounds(code, noise, decoding, rng, j, cursor);
      ZeroProbabilityKeepsInput(noise, before.phys, rng, before.cursor);
      CodewordRound(code, noise, decoding, rng, before);
    }
  }

  /** With p = 0 no shot fails, whatever the depth and decoder. */
  lemma ZeroNoiseNeverFails(code: RepetitionCode, noise: BitFlipChannel, decoder: Option<MajorityVoteDecoder>,
                            depth: int, rng: Draws, cursor: nat)
    requires code.Valid() && noise.p == 0.0 && UnitDraws(rng)
    ensures !Shot(code, noise, decoder, depth, rng, cursor).failed
  {
    ZeroNoiseRounds(code, noise, decoder.Some?, rng, if depth > 0 then depth else 0, cursor);
    XorBitsZeros(Zeros(code.n));
    DecodeAllZeros(MajorityVoteDecoder(code.n), code.n);
  }

  /** When no shot can fail, wherever it starts on the stream, no run of shots counts a
      failure. */
  lemma {:induction false} NoFailingShotNoFailures(code: RepetitionCode, noise: BitFlipChannel, decoder: Option<MajorityVoteDecoder>,
                                                   depth: int, shots: nat, rng: Draws, cursor: nat)
    requires code.Valid()
    requires forall c: nat :: !Shot(code, noise, decoder, depth, rng, c).failed
    ensures FailureCount(code, noise, decoder, depth, shots, rng, cursor).failures == 0
    decreases shots
  {
    if shots > 0 {
      NoFailingShotNoFailures(code, noise, decoder, depth, shots - 1, rng, cursor);
    }
  }

  /** With p = 0 the failure count is zero, so the estimate is 0. */
  lemma ZeroNoiseNoFailures(code: RepetitionCode, noise: BitFlipChannel, decoder: Option<MajorityVoteDecoder>,
                            depth: int, shots: nat, rng: Draws, cursor: nat)
    requires code.Valid() && noise.p == 0.0 && UnitDraws(rng)
    ensures FailureCount(code, noise, decoder, depth, shots, rng, cursor).failures == 0
  {
    forall c: nat ensures !Shot(code, noise, decoder, depth, rng, c).failed {
      ZeroNoiseNeverFails(code, noise, decoder, depth, rng, c);
    }
    NoFailingShotNoFailures(code, noise, decoder, depth, shots, rng, cursor);
  }

  /** With p = 1 one round turns "no error" into the logical X and back, and nothing else
      changes. */
  lemma FullNoiseRound(code: RepetitionCode, noise: BitFlipChannel, decoding: bool, rng: Draws, s: ShotState, odd: bool)
    requires code.Valid() && noise.p == 1.0 && UnitDraws(rng) && WellFormed(s, code.n)
    requires s.phys == (if odd then Ones(code.n) else Zeros(code.n))
    requires s.frame == Zeros(code.n) && s.synPrev == Zeros(code.n - 1)
    ensures Round(code, noise, decoding, rng, s).phys == (if odd then Zeros(code.n) else Ones(code.n))
    ensures Round(code, noise, decoding, rng, s).frame == Zeros(code.n)
    ensures Round(code, noise, decoding, rng, s).synPrev == Zeros(code.n - 1)
  {
    FullProbabilityFlipsAll(noise, s.phys, rng, s.cursor);
    assert Complement(Zeros(code.n)) == Ones(code.n);
    assert Complement(Ones(code.n)) == Zeros(code.n);
    CodewordRound(code, noise, decoding, rng, s);
  }

  /** With p = 1 every qubit flips in every round: the physical error alternates between all
      ones (after an odd number of rounds) and all zeros, and the decoder never acts because
      neither changes the syndrome. */
  lemma {:induction false} FullNoiseRounds(code: RepetitionCode, noise: BitFlipChannel, decoding: bool,
                                           rng: Draws, k: nat, cursor: nat)
    requires code.Valid() && noise.p == 1.0 && UnitDraws(rng)
    ensures var s := Rounds(code, noise, decoding, rng, k, cursor);
      s.phys == (if k % 2 == 1 then Ones(code.n) else Zeros(code.n))
      && s.frame == Zeros(code.n) && s.synPrev == Zeros(code.n - 1)
  {
    if k > 0 {
      FullNoiseRounds(code, noise, decoding, rng, k - 1, cursor);
      var before := Rounds(code, noise, decoding, rng, k - 1, cursor);
      FullNoiseRound(code, noise, decoding, rng, before, (k - 1) % 2 == 1);
      assert Rounds(code, noise, decoding, rng, k, cursor) == Round(code, noise, decoding, rng, before);
      assert (k % 2 == 1) == !((k - 1) % 2 == 1);
    }
  }

  /** With p = 1 a shot fails exactly when its depth is positive and odd. */
  lemma FullNoiseFailsOnOddDepth(code: RepetitionCode, noise: BitFlipChannel, decoder: Option<MajorityVoteDecoder>,
                                 depth: int, rng: Draws, cursor: nat)
    requires code.Valid() && noise.p == 1.0 && UnitDraws(rng)
    ensures Shot(code, noise, decoder, depth, rng, cursor).failed <==> depth > 0 && depth % 2 == 1
  {
    var k := if depth > 0 then depth else 0;
    FullNoiseRounds(code, noise, decoder.Some?, rng, k, cursor);
    var s := Rounds(code, noise, decoder.Some?, rng, k, cursor);
    XorBitsZeros(s.phys);
    DecodeAllOnes(MajorityVoteDecoder(code.n));
    DecodeAllZeros(MajorityVoteDecoder(code.n), code.n);
  }

  /** A decoding round that draws no coin leaves the recorded syndrome as it was: the flips
      inferred from the syndrome change exactly cancel that change. */
  lemma CoinFreeRoundKeepsSyndrome(code: RepetitionCode, noise: BitFlipChannel, rng: Draws, s: ShotState)
    requires code.Valid() && WellFormed(s, code.n)
    requires Round(code, noise, true, rng, s).cursor == s.cursor + code.n
    ensures Round(code, noise, true, rng, s).synPrev == s.synPrev
  {
    var n := code.n;
    var u := Noisy(noise, rng, s);
    var eff := ApplyMask(u.phys, u.frame);
    var delta := XorBits(u.synPrev, Syndrome(eff));
    var flips := Flips(delta, n, rng, u.cursor);
    CoinFreeFlipsExplainDelta(delta, n, rng, u.cursor);
    XorBitsAssociative(u.phys, u.frame, flips);
    SyndromeLinear(eff, flips);
    XorBitsCancel(u.synPrev, Syndrome(eff));
  }

  /** So a coin-free decoding round from a state with nothing recorded leaves an effective
      error (physical XOR frame) that is either no error or the logical X. */
  lemma CoinFreeRoundStaysInCodespace(code: RepetitionCode, noise: BitFlipChannel, rng: Draws, s: ShotState)
    requires code.Valid() && WellFormed(s, code.n) && s.synPrev == Zeros(code.n - 1)
    requires Round(code, noise, true, rng, s).cursor == s.cursor + code.n
    ensures var t := Round(code, noise, true, rng, s);
      t.synPrev == Zeros(code.n - 1)
      && (ApplyMask(t.phys, t.frame) == Zeros(code.n) || ApplyMask(t.phys, t.frame) == Ones(code.n))
  {
    CoinFreeRoundKeepsSyndrome(code, noise, rng, s);
    var t := Round(code, noise, true, rng, s);
    SyndromeKernel(ApplyMask(t.phys, t.frame));
  }

  /** Decoding a single error from a clean state toggles exactly that qubit into the frame,
      cancels the effective error and reads no coin. */
  lemma CorrectFindsSingleError(n: nat, rng: Draws, s: ShotState, k: nat)
    requires n >= 3 && k < n
    requires s.phys == UnitError(n, k) && s.frame == Zeros(n) && s.synPrev == Zeros(n - 1)
    ensures var t := Correct(n, rng, s);
      t.phys == UnitError(n, k) && t.frame == UnitError(n, k)
      && t.synPrev == Zeros(n - 1) && t.cursor == s.cursor
  {
    XorBitsZeros(UnitError(n, k));
    UnitErrorSyndrome(n, k);
    XorBitsZeros(Syndrome(UnitError(n, k)));
    var delta := XorBits(s.synPrev, Syndrome(ApplyMask(s.phys, s.frame)));
    assert delta == Syndrome(UnitError(n, k));
    SingleErrorInferred(n, k, rng, s.cursor);
    var frame := ApplyMask(s.frame, ToggleAll(Zeros(n), Scan(delta, n, rng, 0, s.cursor).toggles));
    assert frame == UnitError(n, k);
    assert ApplyMask(s.phys, frame) == Zeros(n);
    XorBitsZeros(Zeros(n));
    assert Syndrome(Zeros(n)) == Zeros(n - 1);
  }

  /** A single flip in the first round of a decoding shot is found and cancelled: the frame
      equals the error, nothing is recorded, and no coin is drawn. */
  lemma SingleFlipRound(code: RepetitionCode, noise: BitFlipChannel, rng: Draws, cursor: nat, k: nat)
    requires code.Valid() && k < code.n
    requires forall j :: cursor <= j < cursor + code.n ==> (rng(j) < noise.p <==> j == cursor + k)
    ensures var t := Round(code, noise, true, rng, Initial(code.n, cursor));
      t.phys == UnitError(code.n, k) && t.frame == UnitError(code.n, k)
      && t.synPrev == Zeros(code.n - 1) && t.cursor == cursor + code.n
  {
    var u := Noisy(noise, rng, Initial(code.n, cursor));
    assert u.phys == UnitError(code.n, k);
    CorrectFindsSingleError(code.n, rng, u, k);
  }

  /** So a decoding shot of depth 1 with a single flip does not fail. */
  lemma SingleFlipCorrected(code: RepetitionCode, noise: BitFlipChannel, dec: MajorityVoteDecoder,
                            rng: Draws, cursor: nat, k: nat)
    requires code.Valid() && k < code.n
    requires forall j :: cursor <= j < cursor + code.n ==> (rng(j) < noise.p <==> j == cursor + k)
    ensures !Shot(code, noise, Some(dec), 1, rng, cursor).failed
    ensures Shot(code, noise, Some(dec), 1, rng, cursor).next == cursor + code.n
  {
    var n := code.n;
    SingleFlipRound(code, noise, rng, cursor, k);
    var s := Rounds(code, noise, true, rng, 1, cursor);
    assert s == Round(code, noise, true, rng, Initial(n, cursor));
    assert ApplyMask(s.phys, s.frame) == Zeros(n) by {
      assert XorBits(UnitError(n, k), UnitError(n, k)) == Zeros(n);
    }
    DecodeAllZeros(MajorityVoteDecoder(n), n);
  }
}
