# Gaussian mechanism of the Aegis privacy engine

This project models the differential-privacy step of the Aegis engine
(`aegis-engine/src/dp.rs`). A `GaussianMechanism` holds a noise standard
deviation `sigma` and an L2 clipping threshold. It is built by `new`, which
rejects bad parameters. `clip` rescales a parameter vector so that its global
L2 norm does not exceed the threshold. `add_noise` adds one Gaussian sample to
every coordinate. `apply` is one privatisation step: clip first, then add
noise. The errors are `InvalidParameters` and `GenerationError`.

Modelling choices:

- `f32`/`f64` become exact `real`s.
- Dafny's reals have no square root. The norm that `sqrt` returns is passed to
  `Clip` and `Apply` as the argument `norm`, with the precondition
  `IsNorm(data, norm)`: `norm >= 0` and `norm * norm == SumSq(data)`. Every
  vector has such a norm, and `L2.NormUnique` shows there is only one, so the
  precondition rules out no input and `Dp.ClipDeterministic` shows the result
  depends on the vector alone.
- The randomness is a sequence of standard-normal draws `z`. The noise that
  `Normal(0, sigma)` contributes for a draw is `0.0 + sigma * z` (`Dp.NoiseSample`).
  The pure `Dp.AddNoise` takes the draws as an argument. `Dp.NormalSource`
  models the generator as state: an endless stream of draws and a cursor that
  each draw advances. `Dp.AddNoiseFrom` and `Dp.ApplyFrom` consume draws from it
  one coordinate at a time and are proved equal to the pure functions.
- The distribution constructor `Normal::new` belongs to the `rand_distr`
  library, which is not part of this model. It is modelled as failing exactly
  when `sigma < 0`. The pure `AddNoise` also reports `GenerationError` when the
  draws it is given are not one per coordinate. `AddNoiseFrom` never meets that
  case, because its stream does not run out.
- `GaussianMechanism` is a datatype: the Rust struct has private fields that
  nothing changes after `new`. `Dp.Valid` is what `new` guarantees of them.
  `Clip` requires only the positive threshold, which is what its division needs.

`dp.rs` has only the two error kinds above. Clipping the zero vector needs no
special case, because its norm 0 never exceeds the positive threshold. With
`sigma == 0`, `add_noise` still draws one sample per coordinate; each sample is
multiplied by zero, so the data comes back unchanged (`Dp.AddNoiseIdentityIff`).

## Model

| member | source | states |
|---|---|---|
| `Dp.New` | aegis-engine/src/dp.rs:19-24 | the result is `InvalidParameters` exactly when `sigma < 0` or the threshold is `<= 0`; otherwise the mechanism holds both values unchanged and satisfies `Valid` |
| `Dp.ClipScale` | aegis-engine/src/dp.rs:29-33 | the scale lies in `(0, 1]`, and the norm times the scale is the smaller of the norm and the threshold |
| `Dp.Clip` | aegis-engine/src/dp.rs:27-36 | the output has the input's length; within the bound it is the input itself; above it every coordinate is multiplied by `threshold / norm`; the output's norm is `min(norm, threshold)` |
| `Dp.ClipBySumSq` | aegis-engine/src/dp.rs:28-35 | the clip decision stated on the sum of squares: identity when it is at most `threshold²`, scaling by `threshold / norm` otherwise |
| `Dp.ClipDeterministic` | aegis-engine/src/dp.rs:28 | the output does not depend on which value is given as the norm |
| `Dp.ClipNormExact` | aegis-engine/src/dp.rs:29-30 | a vector whose norm exceeds the threshold is clipped to a norm equal to the threshold |
| `Dp.ClipNormAtMost` | aegis-engine/src/dp.rs:27-36 | the norm of the output of `clip` is at most the threshold, for every input |
| `Dp.ClipSumSqAtMost` | aegis-engine/src/dp.rs:27-36 | the sum of squares of the output is at most `threshold²` |
| `Dp.ClipIdempotent` | aegis-engine/src/dp.rs:27-36 | clipping an already clipped vector returns it unchanged |
| `Dp.ClipZero` | aegis-engine/src/dp.rs:28-33 | the zero vector has norm 0 and is returned unchanged |
| `Dp.ClipExample` | aegis-engine/src/dp.rs:60-69 | with `sigma = 1` and threshold 5, `[6, 8]` (norm 10) is clipped to `[3, 4]` |
| `Dp.AddNoise` | aegis-engine/src/dp.rs:39-46 | `GenerationError` exactly when `sigma < 0` or the draws are not one per coordinate; otherwise a vector of the same length whose element `i` is `data[i]` plus the sample from draw `i` |
| `Dp.AddNoiseIdentityIff` | aegis-engine/src/dp.rs:43-45 | the data comes back unchanged exactly when it is empty, `sigma` is 0, or every draw is 0; so any non-zero draw with a positive `sigma` changes the vector, as the noise test at lines 71-79 expects |
| `Dp.Apply` | aegis-engine/src/dp.rs:49-52 | fails with `GenerationError` exactly when adding noise fails; otherwise element `i` is the clipped element `i` plus the sample from draw `i` |
| `Dp.ApplyClipOnly` | aegis-engine/src/dp.rs:49-52 | with `sigma = 0`, `apply` returns exactly the output of `clip`, whatever the values of the draws, one per coordinate |
| `Dp.ApplyNoiseOnClipped` | aegis-engine/src/dp.rs:49-52 | removing the noise from the output of `apply` leaves a vector whose sum of squares is at most `threshold²`: the noise is added after clipping |
| `Dp.ApplyScenarioOverBound` | aegis-engine/src/dp.rs:49-52 | threshold 1, `sigma = 0`: `[3, 4]` becomes `[0.6, 0.8]` |
| `Dp.ApplyScenarioWithinBound` | aegis-engine/src/dp.rs:49-52 | threshold 1, `sigma = 0`: `[0.3, 0.4]` is returned unchanged |
| `Dp.NormalSource.constructor` | aegis-engine/src/dp.rs:40 | a generator starts at the first draw of its stream |
| `Dp.NormalSource.Next` | aegis-engine/src/dp.rs:44 | one draw returns the stream's value at the cursor and advances the cursor by one |
| `Dp.AddNoiseFrom` | aegis-engine/src/dp.rs:39-46 | the result equals `AddNoise` on the next `len(data)` draws; those draws are consumed on success and none when the distribution cannot be built |
| `Dp.ApplyFrom` | aegis-engine/src/dp.rs:49-52 | the result equals `Apply` on the next `len(data)` draws; the generator advances as in `AddNoiseFrom` |
| `Dp.Valid` | aegis-engine/src/dp.rs:20-23 | the invariant every constructed mechanism keeps: `sigma >= 0` and threshold `> 0` (that `New` establishes it is stated by `Dp.New`) |
| `Dp.NoiseSample` | aegis-engine/src/dp.rs:41-44 | the sample of `Normal(0, sigma)` for a standard-normal draw `z`: it is the mean 0 when `sigma` or `z` is 0, and with `sigma > 0` it lies above the mean exactly when `z > 0` |
| `L2.SumSq` | aegis-engine/src/dp.rs:28 | the sum of the squared coordinates is never negative |
| `L2.IsNorm` | aegis-engine/src/dp.rs:28 | what the `sqrt` of the sum of squares returns: a non-negative value whose square is the sum of squares (a definition; its uniqueness is `L2.NormUnique`) |
| `L2.Scaled` | aegis-engine/src/dp.rs:35 | the element-wise product of a vector with one factor, keeping the length (a definition; its effect on the norm is `L2.SumSqScaled` and `L2.NormScaled`) |
| `L2.NormUnique` | aegis-engine/src/dp.rs:28 | a vector has at most one non-negative square root of its sum of squares |
| `L2.NormExceedsIff` | aegis-engine/src/dp.rs:29 | the norm exceeds a non-negative bound exactly when the sum of squares exceeds the bound squared |
| `L2.SumSqScaled` | aegis-engine/src/dp.rs:28-35 | multiplying every coordinate by `c` multiplies the sum of squares by `c²` |
| `L2.NormScaled` | aegis-engine/src/dp.rs:35 | multiplying every coordinate by `c >= 0` multiplies the norm by `c` |
| `L2.SumSqZeros` | aegis-engine/src/dp.rs:28 | the zero vector has sum of squares 0 and norm 0 |

## Left out

- Floating point: `f32` rounding, the `f64 → f32` cast of the threshold (aegis-engine/src/dp.rs:29-30), NaN and infinities. The model uses exact reals.
- Dp.Clip: takes the value of the `sqrt` call as the argument `norm`, because Dafny's reals have no square root. The precondition `IsNorm` only says that argument is the root.
- The statistics of the noise: that the draws are standard normal, independent, and from `thread_rng`. The draws are inputs, so the randomised test at aegis-engine/src/dp.rs:71-79 is reflected only by `Dp.AddNoiseIdentityIff`.
- The internals of `rand_distr::Normal`, a library. Its constructor is modelled as failing exactly on a negative `sigma`, and its sampler as `mean + sigma * z`.
- `aegis-core/aegis_core/ai/fl_client.py`: the Flower client. Its `fit` is the per-round driver (PyTorch training, a library call to `clip_grad_norm_`, inline noise when the privacy level is the string "high"); its other methods convert model state to and from arrays, evaluate, and start the network client. None of it calls the Gaussian mechanism, and its own logic is library calls and a string test.
- `vaulted-core/vaulted_core/crypto/security.py`: a wrapper over Fernet encryption with key-file I/O.
- `aegis-engine/src/sdk.rs` and `aegis-engine/src/lib.rs`: directory creation, a call into a crypto module that is not part of this model, module declarations and type declarations.
