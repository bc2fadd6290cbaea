/** The Gaussian mechanism of the privacy engine: a validated pair of
    parameters (noise standard deviation and L2 clipping threshold), global
    L2-norm clipping, per-coordinate additive Gaussian noise, and the fixed
    clip-then-noise composition.

    Floating point is replaced by exact reals. The square root of the sum of
    squares is the value the library routine returns, passed in as `norm`
    and required to be that root (`IsNorm`). Randomness is a sequence of
    standard-normal draws, one per coordinate; the noise added to a
    coordinate is `0.0 + sigma * z` for its draw `z`. */
module Dp {
  import opened L2

  datatype DpError = InvalidParameters | GenerationError

  datatype Result<T> = Ok(value: T) | Err(error: DpError)

  /** Noise standard deviation and clipping threshold, never changed after
      construction. */
  datatype GaussianMechanism = GaussianMechanism(sigma: real, clippingThreshold: real)

  /** What `New` guarantees of every mechanism it hands out. */
  predicate Valid(m: GaussianMechanism)
  {
    m.sigma >= 0.0 && m.clippingThreshold > 0.0
  }

  /** Validated construction: a negative sigma or a non-positive threshold
      is rejected, anything else is stored as given. */
  function New(sigma: real, clippingThreshold: real): (r: Result<GaussianMechanism>)
    ensures r.Err? <==> sigma < 0.0 || clippingThreshold <= 0.0
    ensures r.Err? ==> r.error == InvalidParameters
    ensures r.Ok? ==> r.value.sigma == sigma && r.value.clippingThreshold == clippingThreshold
    ensures r.Ok? ==> Valid(r.value)
  {
    if sigma < 0.0 || clippingThreshold <= 0.0 then Err(InvalidParameters)
    else Ok(GaussianMechanism(sigma, clippingThreshold))
  }

  // ---------------------------------------------------------------- clipping

  /** The factor `clip` multiplies by: 1.0 within the bound, otherwise
      threshold / norm. It never enlarges, and the scaled norm is the smaller
      of the norm and the threshold. */
  function ClipScale(m: GaussianMechanism, norm: real): (s: real)
    requires m.clippingThreshold > 0.0 && norm >= 0.0
    ensures 0.0 < s <= 1.0
    ensures s * norm == if norm > m.clippingThreshold then m.clippingThreshold else norm
  {
    if norm > m.clippingThreshold then m.clippingThreshold / norm else 1.0
  }

  /** Clip the global L2 norm of `data` to the threshold. */
  function Clip(m: GaussianMechanism, data: seq<real>, norm: real): (r: seq<real>)
    requires m.clippingThreshold > 0.0 && IsNorm(data, norm)
    ensures |r| == |data|
    ensures norm <= m.clippingThreshold ==> r == data
    ensures norm > m.clippingThreshold ==>
      forall i :: 0 <= i < |r| ==> r[i] == data[i] * (m.clippingThreshold / norm)
    ensures IsNorm(r, if norm > m.clippingThreshold then m.clippingThreshold else norm)
  {
    var s := ClipScale(m, norm);
    NormScaled(data, norm, s);
    assert s == 1.0 ==> Scaled(data, s) == data;
    Scaled(data, s)
  }

  /** The clip decision taken on the sum of squares instead of the norm. */
  lemma ClipBySumSq(m: GaussianMechanism, data: seq<real>, norm: real)
    requires m.clippingThreshold > 0.0 && IsNorm(data, norm)
    ensures SumSq(data) <= m.clippingThreshold * m.clippingThreshold ==> Clip(m, data, norm) == data
    ensures SumSq(data) > m.clippingThreshold * m.clippingThreshold ==>
      Clip(m, data, norm) == Scaled(data, m.clippingThreshold / norm)
  {
    NormExceedsIff(data, norm, m.clippingThreshold);
  }

  /** The result of `clip` depends on the vector alone. */
  lemma ClipDeterministic(m: GaussianMechanism, data: seq<real>, n1: real, n2: real)
    requires m.clippingThreshold > 0.0 && IsNorm(data, n1) && IsNorm(data, n2)
    ensures Clip(m, data, n1) == Clip(m, data, n2)
  {
    NormUnique(data, n1, n2);
  }

  /** Cutting down a vector whose norm exceeds the threshold lands exactly on
      the threshold. */
  lemma ClipNormExact(m: GaussianMechanism, data: seq<real>, norm: real, clippedNorm: real)
    requires m.clippingThreshold > 0.0 && IsNorm(data, norm)
    requires norm > m.clippingThreshold
    requires IsNorm(Clip(m, data, norm), clippedNorm)
    ensures clippedNorm == m.clippingThreshold
  {
    NormUnique(Clip(m, data, norm), clippedNorm, m.clippingThreshold);
  }

  /** The norm of the output of `clip` never exceeds the threshold. */
  lemma ClipNormAtMost(m: GaussianMechanism, data: seq<real>, norm: real, clippedNorm: real)
    requires m.clippingThreshold > 0.0 && IsNorm(data, norm)
    requires IsNorm(Clip(m, data, norm), clippedNorm)
    ensures clippedNorm <= m.clippingThreshold
  {
    var bound := if norm > m.clippingThreshold then m.clippingThreshold else norm;
    NormUnique(Clip(m, data, norm), clippedNorm, bound);
  }

  /** The bound in terms of the sum of squares, which needs no root. */
  lemma ClipSumSqAtMost(m: GaussianMechanism, data: seq<real>, norm: real)
    requires m.clippingThreshold > 0.0 && IsNorm(data, norm)
    ensures SumSq(Clip(m, data, norm)) <= m.clippingThreshold * m.clippingThreshold
  {
  }

  /** Clipping twice is clipping once. */
  lemma ClipIdempotent(m: GaussianMechanism, data: seq<real>, norm: real, clippedNorm: real)
    requires m.clippingThreshold > 0.0 && IsNorm(data, norm)
    requires IsNorm(Clip(m, data, norm), clippedNorm)
    ensures Clip(m, Clip(m, data, norm), clippedNorm) == Clip(m, data, norm)
  {
    ClipNormAtMost(m, data, norm, clippedNorm);
  }

  /** The zero vector is returned unchanged; its norm 0 is below every
      admissible threshold, so no division happens. */
  lemma ClipZero(m: GaussianMechanism, n: nat)
    requires m.clippingThreshold > 0.0
    ensures IsNorm(Zeros(n), 0.0)
    ensures Clip(m, Zeros(n), 0.0) == Zeros(n)
  {
    SumSqZeros(n);
  }

  /** [6, 8] has norm 10; with threshold 5 it is scaled by 0.5 to [3, 4]. */
  lemma ClipExample()
    ensures New(1.0, 5.0).Ok?
    ensures IsNorm([6.0, 8.0], 10.0)
    ensures Clip(New(1.0, 5.0).value, [6.0, 8.0], 10.0) == [3.0, 4.0]
  {
  }

  // ------------------------------------------------------------------- noise

  /** Mean of the Gaussian the noise is drawn from. */
  const NoiseMean: real := 0.0

  /** A sample of Normal(NoiseMean, sigma) obtained from a standard-normal
      draw `z`. */
  function NoiseSample(m: GaussianMechanism, z: real): (s: real)
    ensures m.sigma == 0.0 || z == 0.0 ==> s == NoiseMean
    ensures m.sigma > 0.0 ==> (s > NoiseMean <==> z > 0.0)
  {
    NoiseMean + m.sigma * z
  }

  /** Add one noise sample to each coordinate. Building the distribution
      fails for a negative sigma; a generator that does not yield exactly one
      draw per coordinate is a failed generation too. */
  function AddNoise(m: GaussianMechanism, data: seq<real>, draws: seq<real>): (r: Result<seq<real>>)
    ensures r.Err? <==> m.sigma < 0.0 || |draws| != |data|
    ensures r.Err? ==> r.error == GenerationError
    ensures r.Ok? ==> |r.value| == |data|
    ensures r.Ok? ==> forall i :: 0 <= i < |data| ==> r.value[i] == data[i] + NoiseSample(m, draws[i])
  {
    if m.sigma < 0.0 || |draws| != |data| then Err(GenerationError)
    else Ok(seq(|data|, i requires 0 <= i < |data| => data[i] + NoiseSample(m, draws[i])))
  }

  /** Noise leaves the vector as it was exactly when sigma is zero, every
      draw is zero, or there is nothing to perturb. */
  lemma AddNoiseIdentityIff(m: GaussianMechanism, data: seq<real>, draws: seq<real>)
    requires m.sigma >= 0.0 && |draws| == |data|
    ensures AddNoise(m, data, draws) == Ok(data) <==>
      (|data| == 0 || m.sigma == 0.0 || forall i :: 0 <= i < |draws| ==> draws[i] == 0.0)
  {
    var r := AddNoise(m, data, draws);
    if m.sigma != 0.0 && exists i :: 0 <= i < |draws| && draws[i] != 0.0 {
      var j :| 0 <= j < |draws| && draws[j] != 0.0;
      assert m.sigma * draws[j] != 0.0;
      assert r.value[j] != data[j];
    } else {
      assert r.value == data;
    }
  }

  // ------------------------------------------------------------- composition

  /** One privatisation step: clip, then add noise to the clipped vector; an
      error from adding noise is passed on unchanged. */
  function Apply(m: GaussianMechanism, data: seq<real>, norm: real, draws: seq<real>): (r: Result<seq<real>>)
    requires m.clippingThreshold > 0.0 && IsNorm(data, norm)
    ensures r.Err? <==> m.sigma < 0.0 || |draws| != |data|
    ensures r.Err? ==> r.error == GenerationError
    ensures r.Ok? ==> |r.value| == |data|
    ensures r.Ok? ==> forall i :: 0 <= i < |data| ==>
      r.value[i] == Clip(m, data, norm)[i] + NoiseSample(m, draws[i])
  {
    var clipped := Clip(m, data, norm);
    AddNoise(m, clipped, draws)
  }

  /** With sigma zero the mechanism is clipping alone, whatever the draws. */
  lemma ApplyClipOnly(m: GaussianMechanism, data: seq<real>, norm: real, draws: seq<real>)
    requires m.clippingThreshold > 0.0 && m.sigma == 0.0 && IsNorm(data, norm)
    requires |draws| == |data|
    ensures Apply(m, data, norm, draws) == Ok(Clip(m, data, norm))
  {
    AddNoiseIdentityIff(m, Clip(m, data, norm), draws);
  }

  /** Whatever the noise, what it was added to lies within the threshold:
      clipping comes first. */
  lemma ApplyNoiseOnClipped(m: GaussianMechanism, data: seq<real>, norm: real, draws: seq<real>)
    requires m.clippingThreshold > 0.0 && IsNorm(data, norm)
    requires Apply(m, data, norm, draws).Ok?
    ensures SumSq(seq(|data|, i requires 0 <= i < |data| =>
      Apply(m, data, norm, draws).value[i] - NoiseSample(m, draws[i])))
      <= m.clippingThreshold * m.clippingThreshold
  {
    var r := Apply(m, data, norm, draws).value;
    var denoised := seq(|data|, i requires 0 <= i < |data| => r[i] - NoiseSample(m, draws[i]));
    assert denoised == Clip(m, data, norm);
    ClipSumSqAtMost(m, data, norm);
  }

  /** Threshold 1, sigma 0: [3, 4] (norm 5) becomes [0.6, 0.8]. */
  lemma ApplyScenarioOverBound(draws: seq<real>)
    requires |draws| == 2
    ensures New(0.0, 1.0).Ok?
    ensures IsNorm([3.0, 4.0], 5.0)
    ensures Apply(New(0.0, 1.0).value, [3.0, 4.0], 5.0, draws) == Ok([0.6, 0.8])
  {
    assert SumSq([3.0, 4.0]) == 25.0 by {
      assert [3.0, 4.0][1..] == [4.0];
      assert [4.0][1..] == [];
    }
    var m := New(0.0, 1.0).value;
    ApplyClipOnly(m, [3.0, 4.0], 5.0, draws);
    var c := Clip(m, [3.0, 4.0], 5.0);
    assert c[0] == 0.6 && c[1] == 0.8;
    assert c == [0.6, 0.8];
  }

  /** Threshold 1, sigma 0: [0.3, 0.4] (norm 0.5) is returned unchanged. */
  lemma ApplyScenarioWithinBound(draws: seq<real>)
    requires |draws| == 2
    ensures New(0.0, 1.0).Ok?
    ensures IsNorm([0.3, 0.4], 0.5)
    ensures Apply(New(0.0, 1.0).value, [0.3, 0.4], 0.5, draws) == Ok([0.3, 0.4])
  {
    assert SumSq([0.3, 0.4]) == 0.25 by {
      assert [0.3, 0.4][1..] == [0.4];
      assert [0.4][1..] == [];
    }
    ApplyClipOnly(New(0.0, 1.0).value, [0.3, 0.4], 0.5, draws);
  }

  // ------------------------------------------------ the generator as a state

  /** The random generator: an endless stream of standard-normal draws and
      the position of the next one. Each draw advances the position. */
  class NormalSource {
    var draws: nat -> real
    var cursor: nat

    constructor (draws: nat -> real)
      ensures this.draws == draws && cursor == 0
    {
      this.draws := draws;
      cursor := 0;
    }

    /** The next `n` draws the stream will deliver. */
    function Upcoming(n: nat): (s: seq<real>)
      reads this
      ensures |s| == n
      ensures forall i :: 0 <= i < n ==> s[i] == draws(cursor + i)
    {
      var d, c := draws, cursor;
      seq(n, i requires 0 <= i < n => d(c + i))
    }

    method Next() returns (z: real)
      modifies this
      ensures z == old(draws(cursor))
      ensures draws == old(draws) && cursor == old(cursor) + 1
    {
      z := draws(cursor);
      cursor := cursor + 1;
    }
  }

  /** `add_noise` drawing from the generator: on success it consumes one draw
      per coordinate and agrees with AddNoise on those draws; when the
      distribution cannot be built nothing is drawn. */
  method AddNoiseFrom(m: GaussianMechanism, data: seq<real>, src: NormalSource) returns (r: Result<seq<real>>)
    modifies src
    ensures r == AddNoise(m, data, old(src.Upcoming(|data|)))
    ensures src.draws == old(src.draws)
    ensures src.cursor == old(src.cursor) + (if m.sigma < 0.0 then 0 else |data|)
  {
    if m.sigma < 0.0 {
      return Err(GenerationError);
    }
    ghost var drawn := src.Upcoming(|data|);
    var out: seq<real> := [];
    var i := 0;
    while i < |data|
      invariant 0 <= i <= |data|
      invariant src.draws == old(src.draws) && src.cursor == old(src.cursor) + i
      invariant |out| == i
      invariant forall k :: 0 <= k < i ==> out[k] == data[k] + NoiseSample(m, drawn[k])
    {
      var z := src.Next();
      assert z == drawn[i];
      out := out + [data[i] + NoiseSample(m, z)];
      i := i + 1;
    }
    assert AddNoise(m, data, drawn).Ok?;
    assert out == AddNoise(m, data, drawn).value;
    r := Ok(out);
  }

  /** `apply` drawing from the generator: clip first, then add noise. */
  method ApplyFrom(m: GaussianMechanism, data: seq<real>, norm: real, src: NormalSource) returns (r: Result<seq<real>>)
    requires m.clippingThreshold > 0.0 && IsNorm(data, norm)
    modifies src
    ensures r == Apply(m, data, norm, old(src.Upcoming(|data|)))
    ensures src.draws == old(src.draws)
    ensures src.cursor == old(src.cursor) + (if m.sigma < 0.0 then 0 else |data|)
  {
    var clipped := Clip(m, data, norm);
    r := AddNoiseFrom(m, clipped, src);
  }
}
