/**
 * EnvelopeFollowerProcessor of js/worklets/envelope-follower-processor.js:
 * a one-pole follower of |x| that uses the attack coefficient while the
 * input rises above the envelope and the release coefficient otherwise,
 * and writes envelope · gain to every output channel.
 */
module EnvelopeFollower {
  import opened JsValues
  import opened HostMath

  const FallbackRate: real := 48000.0

  /** `globalThis.sampleRate || 48000` for a sample rate that is not negative. */
  function RateOr(sampleRate: real): (r: real)
    requires sampleRate >= 0.0
    ensures r > 0.0
    ensures sampleRate > 0.0 ==> r == sampleRate
  {
    if sampleRate == 0.0 then FallbackRate else sampleRate
  }

  /** k·x + (1 − k)·y */
  function Mix(k: real, x: real, y: real): real {
    k * x + (1.0 - k) * y
  }

  /** For k in [0, 1], Mix(k, x, y) lies between x and y. */
  lemma MixBetween(k: real, x: real, y: real)
    requires 0.0 <= k <= 1.0
    ensures x <= y ==> x <= Mix(k, x, y) <= y
    ensures y <= x ==> y <= Mix(k, x, y) <= x
  {
    assert Mix(k, x, y) - y == k * (x - y);
    assert Mix(k, x, y) - x == (1.0 - k) * (y - x);
    MulSigns(k, x - y);
    MulSigns(1.0 - k, y - x);
  }

  /**
   * One update of the envelope for the input amplitude `amp`: attack
   * coefficient `a` while amp is above the envelope, release `r` otherwise.
   */
  function Follow(env: real, amp: real, a: real, r: real): real
  {
    if amp > env then Mix(a, env, amp) else Mix(r, env, amp)
  }

  /**
   * With both coefficients in [0, 1] the new envelope is a convex
   * combination of the old one and amp: it lies between them, so it
   * rises only on attack and falls only on release.
   */
  lemma FollowBetween(env: real, amp: real, a: real, r: real)
    requires 0.0 <= a <= 1.0 && 0.0 <= r <= 1.0
    ensures amp > env ==> env <= Follow(env, amp, a, r) <= amp
    ensures amp <= env ==> amp <= Follow(env, amp, a, r) <= env
  {
    MixBetween(a, env, amp);
    MixBetween(r, env, amp);
  }

  /**
   * What the sample loop reads: input channel 0, the three parameter
   * arrays (in ms, ms and as a factor), the sample rate and the host's exp.
   */
  datatype Controls = Controls(input: seq<real>, attack: seq<real>, release: seq<real>, gain: seq<real>, rate: real, math: Math)

  /** `a.length > 1 ? a[i] : a[0]` */
  function ParamAt(a: seq<real>, i: nat): real
    requires |a| == 1 || i < |a|
  {
    if |a| > 1 then a[i] else a[0]
  }

  /**
   * The parameter arrays as the host delivers them for n frames: one
   * value or one per frame, attack and release times positive (their
   * declared minimum is 0.1 ms), the sample rate positive.
   */
  predicate Covers(c: Controls, n: nat) {
    && n <= |c.input| && c.rate > 0.0
    && (|c.attack| == 1 || |c.attack| >= n)
    && (|c.release| == 1 || |c.release| >= n)
    && (|c.gain| == 1 || |c.gain| >= n)
    && (forall i :: 0 <= i < |c.attack| ==> c.attack[i] > 0.0)
    && (forall i :: 0 <= i < |c.release| ==> c.release[i] > 0.0)
  }

  /** exp(−1000 / (ms · sampleRate)): the pole of a one-pole smoother with time constant ms. */
  function Coefficient(math: Math, ms: real, rate: real): real
    requires ms > 0.0 && rate > 0.0
  {
    math.exp(-1000.0 / (ms * rate))
  }

  /** exp maps the non-positive reals into [0, 1], as the host's Math.exp does. */
  ghost predicate ExpBounded(math: Math) {
    forall x: real :: x <= 0.0 ==> 0.0 <= math.exp(x) <= 1.0
  }

  lemma CoefficientInUnit(math: Math, ms: real, rate: real)
    requires ms > 0.0 && rate > 0.0 && ExpBounded(math)
    ensures 0.0 <= Coefficient(math, ms, rate) <= 1.0
  {
    MulSigns(ms, rate);
    assert -1000.0 / (ms * rate) <= 0.0;
  }

  /** The envelope after sample i of the block. */
  function Next(env: real, c: Controls, i: nat): real
    requires Covers(c, i + 1)
  {
    Follow(env, Abs(c.input[i]), Coefficient(c.math, ParamAt(c.attack, i), c.rate),
           Coefficient(c.math, ParamAt(c.release, i), c.rate))
  }

  /** The envelope after the first n samples of the block, starting from env. */
  function Envelope(env: real, c: Controls, n: nat): real
    requires Covers(c, n)
  {
    if n == 0 then env else Next(Envelope(env, c, n - 1), c, n - 1)
  }

  /** The sample written to every output channel at frame i. */
  function Emitted(env: real, c: Controls, i: nat): real
    requires Covers(c, i + 1)
  {
    Envelope(env, c, i + 1) * ParamAt(c.gain, i)
  }

  /** The largest |x| among the first n input samples (0 for none). */
  function Peak(s: seq<real>, n: nat): (p: real)
    requires n <= |s|
    ensures p >= 0.0
    ensures forall k :: 0 <= k < n ==> Abs(s[k]) <= p
  {
    if n == 0 then 0.0
    else if Abs(s[n - 1]) > Peak(s, n - 1) then Abs(s[n - 1]) else Peak(s, n - 1)
  }

  function MaxReal(a: real, b: real): real { if a < b then b else a }

  /**
   * With exp bounded as the host's is, the envelope never goes below 0
   * and never above the larger of its start value and the block's peak.
   */
  lemma {:induction false} EnvelopeBounded(env: real, c: Controls, n: nat)
    requires Covers(c, n) && ExpBounded(c.math) && env >= 0.0
    ensures 0.0 <= Envelope(env, c, n) <= MaxReal(env, Peak(c.input, n))
  {
    if n > 0 {
      EnvelopeBounded(env, c, n - 1);
      CoefficientInUnit(c.math, ParamAt(c.attack, n - 1), c.rate);
      CoefficientInUnit(c.math, ParamAt(c.release, n - 1), c.rate);
      FollowBetween(Envelope(env, c, n - 1), Abs(c.input[n - 1]),
                    Coefficient(c.math, ParamAt(c.attack, n - 1), c.rate),
                    Coefficient(c.math, ParamAt(c.release, n - 1), c.rate));
    }
  }

  class Processor {
    var envelope: real

    constructor()
      ensures envelope == 0.0
    {
      envelope := 0.0;
    }

    /**
     * process. `input` is inputs[0] (no channels when it is missing) and
     * `output` is outputs[0]. With no input channel every output channel
     * is cleared and the envelope is kept; otherwise each frame of input
     * channel 0 updates the envelope and writes envelope · gain at that
     * frame of every output channel long enough to hold it.
     */
    method Process(input: seq<seq<real>>, output: seq<array<real>>, attack: seq<real>, release: seq<real>,
                   gain: seq<real>, sampleRate: real, math: Math)
      requires sampleRate >= 0.0
      requires |input| > 0 ==> Covers(Controls(input[0], attack, release, gain, RateOr(sampleRate), math), |input[0]|)
      requires forall p, q :: 0 <= p < q < |output| ==> output[p] != output[q]
      modifies this, set ch | 0 <= ch < |output| :: output[ch]
      ensures |input| == 0 ==> envelope == old(envelope)
      ensures |input| == 0 ==> forall ch :: 0 <= ch < |output| ==> output[ch][..] == Zeros(output[ch].Length)
      ensures |input| > 0 ==>
        var c := Controls(input[0], attack, release, gain, RateOr(sampleRate), math);
        && envelope == Envelope(old(envelope), c, |input[0]|)
        && (forall ch, j :: 0 <= ch < |output| && 0 <= j < output[ch].Length && j < |input[0]| ==>
             output[ch][j] == Emitted(old(envelope), c, j))
        && (forall ch, j :: 0 <= ch < |output| && |input[0]| <= j < output[ch].Length ==>
             output[ch][j] == old(output[ch][j]))
    {
      if |input| == 0 {
        ClearAll(output);
        return;
      }
      var c := Controls(input[0], attack, release, gain, RateOr(sampleRate), math);
      envelope := Render(envelope, c, output);
    }
  }

  /**
   * The sample loop of `process` over input channel 0 from envelope
   * `env`: the final envelope and, at every frame, envelope · gain in
   * every output channel long enough to hold it.
   */
  method Render(env: real, c: Controls, output: seq<array<real>>) returns (envelope: real)
    requires Covers(c, |c.input|)
    requires forall p, q :: 0 <= p < q < |output| ==> output[p] != output[q]
    modifies set ch | 0 <= ch < |output| :: output[ch]
    ensures envelope == Envelope(env, c, |c.input|)
    ensures forall ch, j :: 0 <= ch < |output| && 0 <= j < output[ch].Length && j < |c.input| ==>
      output[ch][j] == Emitted(env, c, j)
    ensures forall ch, j :: 0 <= ch < |output| && |c.input| <= j < output[ch].Length ==>
      output[ch][j] == old(output[ch][j])
  {
    envelope := env;
    var i := 0;
    while i < |c.input|
      invariant 0 <= i <= |c.input| && envelope == Envelope(env, c, i)
      invariant forall ch, j :: 0 <= ch < |output| && 0 <= j < output[ch].Length && j < i ==>
        output[ch][j] == Emitted(env, c, j)
      invariant forall ch, j :: 0 <= ch < |output| && i <= j < output[ch].Length ==>
        output[ch][j] == old(output[ch][j])
    {
      var gainVal;
      envelope, gainVal := Frame(envelope, c, i);
      assert envelope == Envelope(env, c, i + 1);
      assert envelope * gainVal == Emitted(env, c, i);
      WriteAll(output, i, envelope * gainVal);
      i := i + 1;
    }
  }

  /**
   * The body of the sample loop at frame i: the envelope after the frame
   * and the gain value read for it.
   */
  method Frame(envelope: real, c: Controls, i: nat) returns (next: real, gainVal: real)
    requires Covers(c, i + 1)
    ensures next == Next(envelope, c, i) && gainVal == ParamAt(c.gain, i)
  {
    var attackMs := if |c.attack| > 1 then c.attack[i] else c.attack[0];
    var releaseMs := if |c.release| > 1 then c.release[i] else c.release[0];
    gainVal := if |c.gain| > 1 then c.gain[i] else c.gain[0];
    var attackCoeff := Coefficient(c.math, attackMs, c.rate);
    var releaseCoeff := Coefficient(c.math, releaseMs, c.rate);
    var inputAmp := Abs(c.input[i]);
    if inputAmp > envelope {
      next := attackCoeff * envelope + (1.0 - attackCoeff) * inputAmp;
    } else {
      next := releaseCoeff * envelope + (1.0 - releaseCoeff) * inputAmp;
    }
    assert attackCoeff == Coefficient(c.math, ParamAt(c.attack, i), c.rate);
    assert releaseCoeff == Coefficient(c.math, ParamAt(c.release, i), c.rate);
    assert next == Follow(envelope, inputAmp, attackCoeff, releaseCoeff);
  }

  /** `output[channel].fill(0)` for every channel. */
  method ClearAll(output: seq<array<real>>)
    requires forall p, q :: 0 <= p < q < |output| ==> output[p] != output[q]
    modifies set ch | 0 <= ch < |output| :: output[ch]
    ensures forall ch :: 0 <= ch < |output| ==> output[ch][..] == Zeros(output[ch].Length)
  {
    var k := 0;
    while k < |output|
      invariant 0 <= k <= |output|
      invariant forall ch :: 0 <= ch < k ==> output[ch][..] == Zeros(output[ch].Length)
    {
      var a := output[k];
      var j := 0;
      while j < a.Length
        invariant 0 <= j <= a.Length
        invariant forall t :: 0 <= t < j ==> a[t] == 0.0
        invariant forall ch :: 0 <= ch < k ==> output[ch][..] == Zeros(output[ch].Length)
      {
        a[j] := 0.0;
        j := j + 1;
      }
      assert a[..] == Zeros(a.Length);
      k := k + 1;
    }
  }

  /**
   * The channel loop of frame i: v written at index i of every channel;
   * a typed array ignores a write past its end.
   */
  method WriteAll(output: seq<array<real>>, i: nat, v: real)
    requires forall p, q :: 0 <= p < q < |output| ==> output[p] != output[q]
    modifies set ch | 0 <= ch < |output| :: output[ch]
    ensures forall ch :: 0 <= ch < |output| && i < output[ch].Length ==> output[ch][i] == v
    ensures forall ch, j :: 0 <= ch < |output| && 0 <= j < output[ch].Length && j != i ==>
      output[ch][j] == old(output[ch][j])
  {
    var k := 0;
    while k < |output|
      invariant 0 <= k <= |output|
      invariant forall ch, j :: 0 <= ch < |output| && 0 <= j < output[ch].Length ==>
        output[ch][j] == if j == i && ch < k then v else old(output[ch][j])
    {
      if i < output[k].Length {
        output[k][i] := v;
      }
      k := k + 1;
    }
  }
}
