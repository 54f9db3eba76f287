/**
 * DistortionNodeUI of js/nodes/distortion-node.js: a wave-shaping
 * distortion whose transfer curve is rebuilt from the drive setting, with
 * a pre-gain and a dry/wet mix.
 *
 * The curve is a 44100-entry table filled with
 * `(1 + k)·x / (1 + k·|x|)` at x = 2i/44100 − 1; the entries are stored
 * as exact reals (the source rounds them to 32-bit floats). The gain
 * writes (`setTargetAtTime`) are modelled as the targets they set.
 */
module DistortionNode {
  import opened JsValues

  /** `samples`: the curve's length. */
  const Samples: nat := 44100

  /** The curve's sample point for entry i: `i * 2 / samples - 1`. */
  function X(i: nat): real {
    (i as real * 2.0) / Samples as real - 1.0
  }

  /** `Math.max(0, value) * 100` */
  function Amount(value: real): (k: real)
    ensures k >= 0.0
    ensures value >= 0.0 ==> k == value * 100.0
  {
    (if value < 0.0 then 0.0 else value) * 100.0
  }

  /** The transfer function `(1 + k)·x / (1 + k·|x|)`. */
  function Shaper(k: real, x: real): real
    requires k >= 0.0
  {
    MulSigns(k, Abs(x));
    (1.0 + k) * x / (1.0 + k * Abs(x))
  }

  /** The curve's sample points run from −1 up to, but not including, 1. */
  lemma XRange(i: nat)
    requires i < Samples
    ensures -1.0 <= X(i) < 1.0
    ensures X(0) == -1.0 && X(Samples / 2) == 0.0
  {
  }

  /** For inputs in [−1, 1] the output stays in [−1, 1], below 1 for inputs below 1, and keeps the input's sign. */
  lemma ShaperBounded(k: real, x: real)
    requires k >= 0.0 && -1.0 <= x <= 1.0
    ensures -1.0 <= Shaper(k, x) <= 1.0
    ensures x < 1.0 ==> Shaper(k, x) < 1.0
    ensures (x > 0.0 ==> Shaper(k, x) > 0.0) && (x < 0.0 ==> Shaper(k, x) < 0.0) && (x == 0.0 ==> Shaper(k, x) == 0.0)
  {
    var d := 1.0 + k * Abs(x);
    MulSigns(k, Abs(x));
    MulSigns(k, 1.0 - Abs(x));
    assert d > 0.0;
    var n := (1.0 + k) * x;
    var q := n / d;
    assert q * d == n;
    // |n| <= d because (1 + k)·|x| = |x| + k·|x| <= 1 + k·|x|
    assert Abs(n) == (1.0 + k) * Abs(x);
    assert Abs(n) <= d;
    MulSigns(q - 1.0, d);
    MulSigns(q + 1.0, d);
    MulSigns(1.0 + k, x);
    MulSigns(q, d);
    if x < 1.0 {
      ShaperBelowOne(k, x);
    }
  }

  /** Below 1 the output stays below 1: (1 + k)·x < 1 + k·|x| when x < 1. */
  lemma ShaperBelowOne(k: real, x: real)
    requires k >= 0.0 && x < 1.0
    ensures Shaper(k, x) < 1.0
  {
    var d := 1.0 + k * Abs(x);
    MulSigns(k, Abs(x));
    var n := (1.0 + k) * x;
    MulSigns(k, Abs(x) - x);
    assert n < d;
    assert d > 0.0;
    var q := n / d;
    assert q * d == n;
    assert Shaper(k, x) == q;
    MulSigns(q - 1.0, d);
  }

  /** The transfer function is odd: it bends negative inputs exactly as positive ones. */
  lemma ShaperOdd(k: real, x: real)
    requires k >= 0.0
    ensures Shaper(k, -x) == -Shaper(k, x)
  {
    MulSigns(k, Abs(x));
    assert Abs(-x) == Abs(x);
    assert (1.0 + k) * -x == -((1.0 + k) * x);
  }

  /** It maps the end points to themselves, and with a drive of 0 it is the identity. */
  lemma ShaperFixedPoints(k: real, x: real)
    requires k >= 0.0
    ensures Shaper(k, 1.0) == 1.0 && Shaper(k, -1.0) == -1.0 && Shaper(k, 0.0) == 0.0
    ensures Shaper(0.0, x) == x
  {
    MulSigns(k, 1.0);
  }

  /** The curve `makeDistortionCurve(amount)` returns, entry by entry. */
  ghost predicate IsCurve(curve: seq<real>, k: real)
    requires k >= 0.0
  {
    |curve| == Samples && forall i :: 0 <= i < |curve| ==> curve[i] == Shaper(k, X(i))
  }

  /**
   * The table is odd about its middle entry: entry 44100 − i is the
   * negation of entry i; entry 0 is −1, the middle entry is 0, and
   * every entry lies in [−1, 1), since the sample points stop short of 1.
   */
  lemma CurveSymmetry(curve: seq<real>, k: real, i: nat)
    requires k >= 0.0 && IsCurve(curve, k) && 1 <= i < Samples
    ensures curve[Samples - i] == -curve[i]
    ensures curve[0] == -1.0 && curve[Samples / 2] == 0.0
    ensures -1.0 <= curve[i] < 1.0
  {
    assert X(Samples - i) == -X(i);
    ShaperOdd(k, X(i));
    ShaperFixedPoints(k, 0.0);
    XRange(i);
    ShaperBounded(k, X(i));
  }

  /** `makeDistortionCurve(amount)` */
  method MakeDistortionCurve(amount: real) returns (curve: array<real>)
    requires amount >= 0.0
    ensures fresh(curve)
    ensures IsCurve(curve[..], amount)
  {
    var k := amount;
    curve := new real[Samples];
    var i := 0;
    while i < Samples
      invariant 0 <= i <= Samples
      invariant forall j :: 0 <= j < i ==> curve[j] == Shaper(k, X(j))
    {
      var x := i as real * 2.0 / Samples as real - 1.0;
      MulSigns(k, Abs(x));
      curve[i] := (1.0 + k) * x / (1.0 + k * Abs(x));
      i := i + 1;
    }
  }

  class Node {
    var driveValue: real
    var preGainValue: real
    var mixValue: real
    /** `initAudio` has run: the gains exist. */
    var started: bool
    /** The wave shaper exists. */
    var shaping: bool
    /** The wave shaper's curve. */
    var curve: array<real>
    /** The targets last given to the pre-gain, dry and wet gains. */
    var preGainTarget: real
    var dryTarget: real
    var wetTarget: real

    constructor()
      ensures driveValue == 0.5 && preGainValue == 1.0 && mixValue == 0.75
      ensures !started && !shaping
    {
      driveValue := 0.5;
      preGainValue := 1.0;
      mixValue := 0.75;
      started := false;
      shaping := false;
      curve := new real[0];
      preGainTarget := 1.0;
      dryTarget := 1.0;
      wetTarget := 1.0;
    }

    /**
     * The state part of `initAudio`: the graph exists with a wave shaper,
     * and `initializeParams` runs each slider's handler once with the
     * slider's value, which is the stored drive, pre-gain and mix: the
     * drive's curve is installed and the gains are targeted.
     */
    method InitAudio()
      modifies this`started, this`shaping, this`driveValue, this`curve
      modifies this`preGainValue, this`preGainTarget, this`mixValue, this`dryTarget, this`wetTarget
      ensures started && shaping
      ensures driveValue == old(driveValue) && preGainValue == old(preGainValue) && mixValue == old(mixValue)
      ensures fresh(curve) && IsCurve(curve[..], Amount(driveValue))
      ensures preGainTarget == preGainValue
      ensures dryTarget == 1.0 - mixValue && wetTarget == mixValue
    {
      started := true;
      shaping := true;
      SetDrive(driveValue);
      SetPreGain(preGainValue);
      SetMix(mixValue);
    }

    /** `setDrive(value)`: with a wave shaper, a new curve for amount max(0, value) · 100. */
    method SetDrive(value: real)
      modifies this`driveValue, this`curve
      ensures driveValue == value
      ensures !shaping ==> curve == old(curve)
      ensures shaping ==> fresh(curve) && IsCurve(curve[..], Amount(value))
    {
      driveValue := value;
      if !shaping {
        return;
      }
      var amount := Amount(value);
      curve := MakeDistortionCurve(amount);
    }

    /** `setPreGain(value)` */
    method SetPreGain(value: real)
      modifies this`preGainValue, this`preGainTarget
      ensures preGainValue == value
      ensures preGainTarget == (if started then value else old(preGainTarget))
    {
      preGainValue := value;
      if started {
        preGainTarget := value;
      }
    }

    /** `setMix(value)`: the dry gain gets 1 − value and the wet gain value, so they always sum to 1. */
    method SetMix(value: real)
      modifies this`mixValue, this`dryTarget, this`wetTarget
      ensures mixValue == value
      ensures started ==> dryTarget == 1.0 - value && wetTarget == value && dryTarget + wetTarget == 1.0
      ensures !started ==> dryTarget == old(dryTarget) && wetTarget == old(wetTarget)
    {
      mixValue := value;
      if !started {
        return;
      }
      dryTarget := 1.0 - value;
      wetTarget := value;
    }

    /** The state part of `onRemoved`: the wave shaper is gone. */
    method OnRemoved()
      modifies this`shaping
      ensures !shaping
    {
      shaping := false;
    }
  }
}
