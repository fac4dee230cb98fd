# Repetition-code error tracking, modelled in Dafny

This project models the simulation core of a Monte-Carlo simulator for the 1D bit-flip
repetition code:

- the code layout and its syndrome map (`repetition.py`);
- the independent bit-flip noise channel (`channels.py`);
- the final majority-vote decoder (`majority_vote.py`);
- the per-round error-tracking loop (`runner.py`).

One shot of `depth` rounds keeps three lists:

- a physical X-error vector;
- an XOR correction frame;
- the syndrome recorded after the previous round.

Each round applies noise to the physical vector. When decoding is on, it then:

1. measures the syndrome of the effective error (physical XOR frame);
2. decodes the change of syndrome into data-qubit flips, using a greedy left-to-right rule
   (adjacent pair, left edge, right edge, then a coin for an isolated interior defect);
3. XORs the flips into the frame;
4. records the new syndrome.

The majority vote of the final effective error is the shot's verdict. The estimator counts
failing shots.

Modules, one per source file plus three shared ones:

- `Bits` (`bits.dfy`): Python's `^`, `& 1`, `^= 1` and truthiness written out on `int`.
- `Results` (`results.dfy`): the raised errors as `Result`/`Outcome` values.
- `RandomStream` (`draws.dfy`): the random source.
- `Repetition`, `Channels`, `MajorityVote`, `Runner`: one per source file.

Where the Python code computes with a loop, the model has a `method` with that loop. The method is
proved equal to a specification function (`Scan`/`Flips`, `Rounds`/`Shot`, `FailureCount`). The
properties are lemmas about those functions.

Randomness: the shot's single `random.Random` object is an arbitrary stream `rng: nat -> real`
read through a cursor.

- The noise reads draw `cursor + i` for qubit `i` and flips the qubit when that draw is below `p`.
- The decoder's coin for an isolated interior defect is the next draw compared with `0.5`.
- Every operation returns the advanced cursor, so draw counts are stated exactly.
- `UnitDraws(rng)` says every draw lies in `[0, 1)`, as `random()` promises.

Two details of the code that the model keeps as written:

- `decode` counts nonzero entries (`int(b) != 0`), so an entry 2 counts as one error.
- The estimator divides `failures / shots` with no guard of its own against `shots <= 0`.

## Model

| member | source | states |
|---|---|---|
| Repetition.NewRepetitionCode | src/qec/codes/repetition.py:11-13 | construction succeeds exactly when `n >= 3`, keeps `n`, and otherwise reports the too-small error |
| Repetition.RepetitionCode.NData | src/qec/codes/repetition.py:16-18 | `n_data` is `n` (at least 3 on a constructed code) |
| Repetition.RepetitionCode.Distance | src/qec/codes/repetition.py:24-26 | the distance equals `n_data` |
| Repetition.RepetitionCode.Checks | src/qec/codes/repetition.py:20-22 | `n - 1` checks, the i-th being `(i, i + 1)` |
| Repetition.RepetitionCode.Stabilizers | src/qec/codes/repetition.py:28-30 | as many stabilizers as checks, the i-th being `("ZZ", (i, i + 1))` |
| Repetition.RepetitionCode.LogicalX | src/qec/codes/repetition.py:32-34 | the logical X is `n` X's supported on qubits `0 .. n - 1` |
| Repetition.RepetitionCode.MeasureSyndromeFromXErrors | src/qec/codes/repetition.py:41-49 | fails exactly when the length is not `n`; otherwise `n - 1` bits, bit `i` the XOR of the truthiness of entries `i` and `i + 1` |
| Repetition.RepetitionCode.ExpectedSyndromeForSingleX | src/qec/codes/repetition.py:51-56 | fails exactly when `k` is outside `[0, n)`; otherwise the syndrome of the single flip, with ones exactly at `k - 1` and `k` |
| Repetition.RepetitionCode.Validate | src/qec/codes/repetition.py:58-62 | never raises on a constructed code |
| Repetition.Syndrome | src/qec/codes/repetition.py:46-49 | the syndrome map sends an `n`-entry vector to `n - 1` check outcomes, each 0 or 1 |
| Repetition.SyndromeShape | src/qec/codes/repetition.py:46-49 | the syndrome of an `n`-qubit vector has `n - 1` entries, each 0 or 1 |
| Repetition.UnitErrorSyndrome | src/qec/codes/repetition.py:51-56 | a single flip at `k` lights exactly the checks `k - 1` and `k` that exist |
| Repetition.UnitErrorSyndromeWeight | src/qec/codes/repetition.py:51-56 | a single flip lights one check at either end of the chain and two in the interior |
| Repetition.LogicalXIsUndetectable | src/qec/codes/repetition.py:32-34 | flipping every qubit (the logical X) leaves every check unchanged; the all-ones vector has zero syndrome |
| Repetition.SyndromeKernel | src/qec/codes/repetition.py:46-49 | a bit vector has zero syndrome if and only if it is no error or the logical X |
| Channels.NewBitFlipChannel | src/qec/noise/channels.py:11-13 | construction succeeds exactly when `0 <= p <= 1` and keeps `p` |
| Channels.BitFlipChannel.Flipped | src/qec/noise/channels.py:15-21 | the channel's output keeps the input's length and maps 0/1 inputs to 0/1 outputs |
| Channels.BitFlipChannel.Apply | src/qec/noise/channels.py:15-21 | entry `i` changes exactly when draw `cursor + i` is below `p`; same length; exactly `len(x_errors)` draws read, in index order; the input is a value and is left unchanged |
| Channels.ZeroProbabilityKeepsInput | src/qec/noise/channels.py:17-19 | with `p = 0` and draws in `[0, 1)` the output equals the input |
| Channels.FullProbabilityFlipsAll | src/qec/noise/channels.py:17-19 | with `p = 1` and draws in `[0, 1)` every entry is flipped |
| MajorityVote.MajorityVoteDecoder.Decode | src/qec/decoding/majority_vote.py:15-16 | a failure needs more than `n // 2` entries, and a decoder with negative `n` always reports a failure (the count, at least 0, exceeds `n // 2 < 0`) |
| MajorityVote.DecodeAllZeros | src/qec/decoding/majority_vote.py:15-16 | the all-zero vector decodes to no failure |
| MajorityVote.DecodeAllOnes | src/qec/decoding/majority_vote.py:15-16 | the all-ones vector of length `n >= 1` decodes to a failure |
| MajorityVote.DecodeIgnoresMagnitude | src/qec/decoding/majority_vote.py:15 | only whether an entry is nonzero matters: the verdict equals that of the vector's truthiness bits |
| MajorityVote.DecodeMonotone | src/qec/decoding/majority_vote.py:15-16 | making a zero entry nonzero never turns a failure verdict into a success |
| MajorityVote.DecodeComplement | src/qec/decoding/majority_vote.py:15-16 | for odd `n`, exactly one of a length-`n` bit vector and its complement decodes to a failure |
| Runner.XorBits | src/qec/simulation/runner.py:12-13 | the result has the shorter input's length, is a bit vector, and bit `i` is 1 exactly when the low bits of `a[i]` and `b[i]` differ |
| Runner.ApplyMask | src/qec/simulation/runner.py:16-17 | a bit vector of the vector's length when the mask is at least as long |
| Runner.ApplyMaskInvolution | src/qec/simulation/runner.py:16-17 | applying the same mask twice gives the original bit vector back |
| Runner.XorBitsAssociative | src/qec/simulation/runner.py:12-13 | XOR of equal-length vectors is associative |
| Runner.XorBitsZeros | src/qec/simulation/runner.py:12-13 | XOR with the all-zero vector leaves a bit vector unchanged, on either side |
| Runner.XorBitsCancel | src/qec/simulation/runner.py:12-13 | XORing `b` into `a XOR b` gives `a` back |
| Runner.SyndromeLinear | src/qec/codes/repetition.py:46-49 | the syndrome of `a XOR b` is the XOR of the syndromes |
| Runner.Rule | src/qec/simulation/runner.py:25-49 | a zero entry is skipped and a defect is resolved; a move by 2 happens only for a pair `delta[i + 1] == 1` and toggles `i + 1`; a coin-free move by 1 is the left edge (toggles 0) or the right edge (toggles `n - 1`); a coin is read only at an isolated interior defect (`0 < i < len(delta) - 1`, `delta[i + 1] != 1`) and toggles `i` or `i + 1`; every toggle lies in `[0, n)` |
| Runner.Scan | src/qec/simulation/runner.py:24-49 | every toggled position lies in `[0, n)`; at most one coin per remaining index is read |
| Runner.ScanStep | src/qec/simulation/runner.py:25-49 | one pass of the loop does exactly what `Rule` decides (skip, or toggle its target and continue at its index and cursor) and keeps the unvisited part of `d` equal to `delta` |
| Runner.Flips | src/qec/simulation/runner.py:22-50 | the flip vector the decoder returns has `n` entries, each 0 or 1 |
| Runner.InferDataFlipsFromDelta | src/qec/simulation/runner.py:20-50 | the returned flips equal `Flips` (the toggles of `Scan` applied to zeros), form a length-`n` bit vector, and the cursor advances by the coins `Scan` reads, at most one per delta entry |
| Runner.ScanOverZeros | src/qec/simulation/runner.py:24-27 | a run of zero entries is skipped with no toggle and no draw |
| Runner.ZeroDeltaNoFlips | src/qec/simulation/runner.py:24-27 | an all-zero delta yields all-zero flips and reads no draw |
| Runner.ScanIncreasing | src/qec/simulation/runner.py:24-49 | on a 0/1 delta the toggled positions strictly increase |
| Runner.ToggleDistinct | src/qec/simulation/runner.py:29-47 | toggling strictly increasing positions of a bit vector (the order the scan produces) flips exactly those positions |
| Runner.FlipsToggleEachQubitOnce | src/qec/simulation/runner.py:24-49 | on a 0/1 delta no qubit is toggled twice: flip `k` is 1 exactly when `k` was toggled |
| Runner.ScanMatchesDelta | src/qec/simulation/runner.py:28-43 | from any index, a coin-free scan extends flips that explain the delta so far into flips that explain all of it |
| Runner.CoinFreeFlipsExplainDelta | src/qec/simulation/runner.py:28-43 | when no coin is drawn (every defect resolved by the pair or edge rules), the syndrome of the flips equals `delta` |
| Runner.SingleErrorInferred | src/qec/simulation/runner.py:28-43 | the syndrome of a single flip at `k` decodes to exactly that flip, with no coin |
| Runner.Noisy | src/qec/simulation/runner.py:74 | the noise step changes only the physical vector (same length, bits stay bits) and reads exactly `n` draws |
| Runner.Correct | src/qec/simulation/runner.py:75-82 | the decoding step keeps the physical vector and the state's shape, and reads at most `n - 1` coins |
| Runner.CorrectTracked | src/qec/simulation/runner.py:81-82 | after decoding, the recorded syndrome is that of the corrected effective error |
| Runner.Round | src/qec/simulation/runner.py:73-82 | one round keeps the state's shape and reads between `n` and `2n - 1` draws; without a decoder it reads exactly `n` and leaves frame and recorded syndrome alone |
| Runner.Initial | src/qec/simulation/runner.py:69-71 | a shot starts from a well-formed state (zero vectors of lengths `n`, `n` and `n - 1`) at the given cursor |
| Runner.Rounds | src/qec/simulation/runner.py:69-82 | every state of a shot is well-formed; with no decoder the frame and the recorded syndrome stay all-zero |
| Runner.RoundsDrawCount | src/qec/simulation/runner.py:73-82 | `k` rounds read between `k*n` and `k*(2n - 1)` draws, exactly `k*n` without a decoder |
| Runner.RoundsTracked | src/qec/simulation/runner.py:75-82 | with a decoder, after every round the recorded syndrome equals the syndrome of `x_phys XOR x_frame` |
| Runner.Shot | src/qec/simulation/runner.py:61-86 | a shot never moves the cursor backwards |
| Runner.ShotWithoutRounds | src/qec/simulation/runner.py:69-86 | a depth of zero or less returns no failure and reads no draw |
| Runner.ShotDrawCount | src/qec/simulation/runner.py:73-86 | a shot of positive depth reads between `depth*n` and `depth*(2n - 1)` draws, exactly `depth*n` without a decoder |
| Runner.CorrectRound | src/qec/simulation/runner.py:75-82 | the decoder branch of the loop body produces exactly the state `Correct` specifies |
| Runner.PlayRound | src/qec/simulation/runner.py:73-82 | one pass of the depth loop produces exactly `Round` of the state, i.e. the state after one more round |
| Runner.PlayRounds | src/qec/simulation/runner.py:69-82 | the depth loop from the all-zero state ends in the state `Rounds` specifies |
| Runner.RunSingleShot | src/qec/simulation/runner.py:61-86 | the verdict and the cursor after the shot are those of `Shot` |
| Runner.FailureCount | src/qec/simulation/runner.py:98-102 | the failure count never exceeds the number of shots, and the cursor only advances |
| Runner.CountShot | src/qec/simulation/runner.py:100-102 | one pass of the estimator's loop adds the next shot's verdict to the count, as `FailureCount` says |
| Runner.CountFailures | src/qec/simulation/runner.py:98-102 | the loop's failure count equals `FailureCount` over `max(shots, 0)` shots on one stream read from its start |
| Runner.CorrectIgnoresCodewords | src/qec/simulation/runner.py:75-82 | with nothing recorded and an effective error that is no error or the logical X, decoding changes nothing |
| Runner.CodewordRound | src/qec/simulation/runner.py:73-82 | a round whose noise leaves a codeword from a clean frame is just that noise |
| Runner.ZeroNoiseRounds | src/qec/simulation/runner.py:73-82 | with `p = 0`, after any number of rounds the physical error, frame and recorded syndrome are all zero |
| Runner.ZeroNoiseNeverFails | src/qec/simulation/runner.py:61-86 | with `p = 0` no shot fails, whatever the depth and decoder |
| Runner.NoFailingShotNoFailures | src/qec/simulation/runner.py:98-102 | when no shot can fail, wherever it starts on the stream, the failure count is 0 |
| Runner.ZeroNoiseNoFailures | src/qec/simulation/runner.py:98-102 | with `p = 0` the failure count is 0 |
| Runner.FullNoiseRound | src/qec/simulation/runner.py:73-82 | with `p = 1` one round turns no error into the logical X and back, leaving frame and recorded syndrome zero |
| Runner.FullNoiseRounds | src/qec/simulation/runner.py:73-82 | with `p = 1` the physical error is all ones after an odd number of rounds and all zeros after an even number, and the decoder never acts |
| Runner.FullNoiseFailsOnOddDepth | src/qec/simulation/runner.py:61-86 | with `p = 1` a shot fails exactly when its depth is positive and odd |
| Runner.CoinFreeRoundKeepsSyndrome | src/qec/simulation/runner.py:75-82 | a decoding round that draws no coin leaves the recorded syndrome unchanged |
| Runner.CoinFreeRoundStaysInCodespace | src/qec/simulation/runner.py:75-84 | from a zero recorded syndrome, a coin-free decoding round leaves the effective error as no error or the logical X |
| Runner.CorrectFindsSingleError | src/qec/simulation/runner.py:75-82 | from a clean state, decoding a single flip puts exactly that flip into the frame, leaves a zero recorded syndrome and draws no coin |
| Runner.SingleFlipRound | src/qec/simulation/runner.py:73-82 | when exactly one qubit's draw is below `p`, the first decoding round cancels that flip in the frame |
| Runner.SingleFlipCorrected | src/qec/simulation/runner.py:61-86 | a decoded shot of depth 1 with exactly one flip does not fail and reads exactly `n` draws |

## Left out

- Floating point: `p` and the draws are exact reals, so rounding in `random()` or in comparisons with `p` and `0.5` is not modelled.
- Python's Mersenne Twister (`random.Random(seed)`) and `utils/seeding.py`: the generator is an arbitrary stream of draws. Reproducibility for a fixed seed holds because every function here is deterministic in the stream.
- The final `failures / shots` division of the estimator, including its `ZeroDivisionError` at `shots == 0`: only the integer failure count is modelled.
- `run_depth_sweep` and `RunnerConfig`: they only orchestrate two estimator calls with the same seed.
- `metrics.py` (Wilson interval, z-table), `analysis/plots.py`, `cli/main.py` and `simulation/spec.py`: floating-point statistics, rendering, argument parsing and a parameter carrier. These are not part of this model.
- `logical_z`: a constant the simulation never reads.
- Runner.InferDataFlipsFromDelta: requires `len(delta) <= n`. With a longer `delta`, a pair or coin toggle at `i + 1` can land past `flips` and Python raises `IndexError`; that error path is not modelled. Its only caller passes `n - 1` entries.
- Repetition.RepetitionCode.MeasureSyndromeFromXErrors: takes integers only. Python also accepts any iterable of values with a truth value; `bool` entries behave as 0/1 integers.
- MajorityVote.DecodeIgnoresMagnitude: only integer entries are modelled (`int(b)` on floats or strings is not).
- In-place list updates (`d`, `flips` and the frame) are modelled as sequence values that the methods reassign. The lists are local to each call, so there is no aliasing to lose. The channel's copy `out` is kept as an array.
- Runner.CoinFreeRoundStaysInCodespace: proved for one round, not for a whole shot. Chaining it over every round of a coin-free shot is not stated.
