/**
 * AbsoluteNodeUI of js/nodes/absolute-node.js: a wave shaper whose
 * 65536-entry curve holds |x| at x = 2i/65535 − 1, so the table runs
 * from x = −1 to x = 1 inclusive. The entries are stored as exact reals
 * (the source rounds them to 32-bit floats).
 */
module AbsoluteNode {
  import opened JsValues

  /** `samples`: the curve's length. */
  const Samples: nat := 65536

  /** The curve's sample point for entry i: `(i / (samples - 1)) * 2 - 1`. */
  function X(i: nat): real {
    (i as real / (Samples - 1) as real) * 2.0 - 1.0
  }

  /** The curve `makeAbsCurve` returns, entry by entry. */
  ghost predicate IsAbsCurve(curve: seq<real>) {
    |curve| == Samples && forall i :: 0 <= i < |curve| ==> curve[i] == Abs(X(i))
  }

  /**
   * Every entry lies in [0, 1]; both ends are 1; the table is symmetric,
   * entry 65535 − i equal to entry i.
   */
  lemma AbsCurveShape(curve: seq<real>, i: nat)
    requires IsAbsCurve(curve) && i < Samples
    ensures 0.0 <= curve[i] <= 1.0
    ensures curve[0] == 1.0 && curve[Samples - 1] == 1.0
    ensures curve[Samples - 1 - i] == curve[i]
  {
    assert X(Samples - 1 - i) == -X(i);
  }

  /**
   * With an even number of entries no sample point is 0: the two middle
   * entries are the smallest, 1/65535 each.
   */
  lemma AbsCurveMinimum(curve: seq<real>, i: nat)
    requires IsAbsCurve(curve) && i < Samples
    ensures curve[i] >= 1.0 / (Samples - 1) as real
    ensures curve[Samples / 2 - 1] == curve[Samples / 2] == 1.0 / (Samples - 1) as real
  {
    var n := (Samples - 1) as real;
    assert X(i) == (2.0 * i as real - n) / n;
    var m := 2 * i - (Samples - 1);
    assert m != 0;
    assert m >= 1 || m <= -1;
    assert Abs(X(i)) == Abs(m as real) / n;
  }

  /** `makeAbsCurve()` */
  method MakeAbsCurve() returns (curve: array<real>)
    ensures fresh(curve)
    ensures IsAbsCurve(curve[..])
  {
    curve := new real[Samples];
    var i := 0;
    while i < Samples
      invariant 0 <= i <= Samples
      invariant forall j :: 0 <= j < i ==> curve[j] == Abs(X(j))
    {
      var x := (i as real / (Samples - 1) as real) * 2.0 - 1.0;
      curve[i] := Abs(x);
      i := i + 1;
    }
  }

  class Node {
    /** The wave shaper exists. */
    var shaping: bool
    /** The wave shaper's curve. */
    var curve: array<real>
    /** The target last given to the output gain by the scale slider. */
    var scaleTarget: real

    constructor()
      ensures !shaping
    {
      shaping := false;
      curve := new real[0];
      scaleTarget := 1.0;
    }

    /** The state part of `initAudio`: the shaper exists and holds the absolute-value curve. */
    method InitAudio()
      modifies this`shaping, this`curve
      ensures shaping && fresh(curve) && IsAbsCurve(curve[..])
    {
      shaping := true;
      curve := MakeAbsCurve();
    }

    /** The scale slider's handler. */
    method SetScale(v: real)
      modifies this`scaleTarget
      ensures scaleTarget == v
    {
      scaleTarget := v;
    }

    /** The state part of `onRemoved`: the wave shaper is gone. */
    method OnRemoved()
      modifies this`shaping
      ensures !shaping
    {
      shaping := false;
    }
  }
}
