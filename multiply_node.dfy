/**
 * MultiplyNodeUI of js/nodes/multiply-node.js: a control source whose
 * value is the product of an input and a factor, pushed to a constant
 * source and reported to its subscribers when it moves by more than
 * 1e-6.
 *
 * The object is modelled after `initAudio`; `base` is its DSPNode part,
 * whose `params[1]` is the factor parameter, and `graph` says whether
 * the constant source still exists. The constant source's offset writes
 * are modelled as the target they set.
 */
module MultiplyNode {
  import opened JsValues
  import opened Subscribers
  import D = DspNode

  /** The factor's bound, `limit`. */
  const Limit: real := 10000.0

  /** Changes of the product up to this size are not reported. */
  const Tolerance: real := 0.000001

  /** The input handler: `Number.isFinite(v) ? v : 0`. */
  function SignalFrom(v: Num): (s: real)
    ensures v.Fin? ==> s == v.v
    ensures !v.Fin? ==> s == 0.0
  {
    if v.Fin? then v.v else 0.0
  }

  /** The factor handler's `safe`: a finite value clamped to ±10000, 0 for anything else. */
  function SafeFactor(v: Num): (f: real)
    ensures -Limit <= f <= Limit
    ensures v.Fin? && -Limit <= v.v <= Limit ==> f == v.v
    ensures v.Fin? && v.v > Limit ==> f == Limit
    ensures v.Fin? && v.v < -Limit ==> f == -Limit
    ensures !v.Fin? ==> f == 0.0
  {
    if !v.Fin? then 0.0
    else if v.v > Limit then Limit
    else if v.v < -Limit then -Limit
    else v.v
  }

  /** The product `signalValue * factorValue`. */
  function Product(signal: real, factor: real): real {
    signal * factor
  }

  /** The product grows no faster than 10000 times the input. */
  lemma ProductBounded(signal: real, v: Num)
    ensures -Limit * Abs(signal) <= Product(signal, SafeFactor(v)) <= Limit * Abs(signal)
  {
    var f := SafeFactor(v);
    MulSigns(Abs(signal), Limit - f);
    MulSigns(Abs(signal), Limit + f);
    if signal >= 0.0 {
      assert Abs(signal) * (Limit - f) == Limit * Abs(signal) - Product(signal, f);
      assert Abs(signal) * (Limit + f) == Limit * Abs(signal) + Product(signal, f);
    } else {
      assert Abs(signal) * (Limit - f) == Limit * Abs(signal) + Product(signal, f);
      assert Abs(signal) * (Limit + f) == Limit * Abs(signal) - Product(signal, f);
    }
  }

  /** With the input on its slider's range [−1, 1] the output stays within ±10000. */
  lemma OutputWithinLimit(signal: real, v: Num)
    requires -1.0 <= signal <= 1.0
    ensures -Limit <= Product(signal, SafeFactor(v)) <= Limit
  {
    ProductBounded(signal, v);
    MulSigns(Limit, 1.0 - Abs(signal));
  }

  /** A factor of 1 passes the input through and a factor of 0 silences it. */
  lemma IdentityAndZero(signal: real)
    ensures Product(signal, SafeFactor(Fin(1.0))) == signal
    ensures Product(signal, SafeFactor(Fin(0.0))) == 0.0
    ensures Product(signal, SafeFactor(NaN)) == 0.0
  {
  }

  class Node {
    /** The DSPNode part of this object. */
    const base: D.Node
    var signalValue: real
    var factorValue: real
    var currentValue: real
    var subscribers: seq<Subscriber>
    /** The `updateParam` calls made on subscribers so far, oldest first. */
    var updates: seq<Subscriber>
    /** The constant source exists. */
    var graph: bool
    /** The target last given to the constant source's offset. */
    var offsetTarget: real

    ghost predicate Valid()
      reads this
    {
      -Limit <= factorValue <= Limit
    }

    constructor(base: D.Node)
      ensures Valid() && this.base == base
      ensures signalValue == 0.0 && factorValue == 1.0 && currentValue == 0.0
      ensures subscribers == [] && updates == [] && !graph
    {
      this.base := base;
      signalValue := 0.0;
      factorValue := 1.0;
      currentValue := 0.0;
      subscribers := [];
      updates := [];
      graph := false;
      offsetTarget := 0.0;
    }

    /**
     * `updateOutput`: the product always becomes the current value and
     * the offset's target; subscribers are told only when it moved by
     * more than 1e-6.
     */
    method UpdateOutput()
      modifies this`currentValue, this`offsetTarget, this`updates
      ensures currentValue == Product(signalValue, factorValue)
      ensures offsetTarget == (if graph then currentValue else old(offsetTarget))
      ensures updates == if Abs(currentValue - old(currentValue)) > Tolerance then old(updates) + subscribers else old(updates)
    {
      var next := Product(signalValue, factorValue);
      var changed := Abs(next - currentValue) > Tolerance;
      currentValue := next;
      if graph {
        offsetTarget := next;
      }
      if changed {
        updates := updates + subscribers;
      }
    }

    /** The state part of `initAudio`: the constant source exists and the first output is pushed. */
    method InitAudio()
      requires Valid()
      modifies this`graph, this`currentValue, this`offsetTarget, this`updates
      ensures Valid() && graph
      ensures currentValue == Product(signalValue, factorValue) && offsetTarget == currentValue
      ensures updates == if Abs(currentValue - old(currentValue)) > Tolerance then old(updates) + subscribers else old(updates)
    {
      graph := true;
      UpdateOutput();
    }

    /** The input parameter's handler. */
    method OnInput(v: Num)
      requires Valid()
      modifies this`signalValue, this`currentValue, this`offsetTarget, this`updates
      ensures Valid()
      ensures signalValue == SignalFrom(v)
      ensures currentValue == Product(signalValue, factorValue)
      ensures offsetTarget == (if graph then currentValue else old(offsetTarget))
      ensures updates == if Abs(currentValue - old(currentValue)) > Tolerance then old(updates) + subscribers else old(updates)
    {
      signalValue := SignalFrom(v);
      UpdateOutput();
    }

    /**
     * The factor parameter's handler: the clamped factor always becomes
     * the parameter's effective value, and also its value unless the
     * change came from automation.
     */
    method OnFactor(v: Num, fromAutomation: bool)
      requires Valid()
      modifies this`factorValue, this`currentValue, this`offsetTarget, this`updates, base`params
      ensures Valid()
      ensures factorValue == SafeFactor(v)
      ensures |old(base.params)| <= 1 ==> base.params == old(base.params)
      ensures |old(base.params)| > 1 ==> base.params == old(base.params)[1 :=
        if fromAutomation then old(base.params)[1].(effectiveValue := Number(Fin(factorValue)))
        else old(base.params)[1].(value := Number(Fin(factorValue)), effectiveValue := Number(Fin(factorValue)))]
      ensures currentValue == Product(signalValue, factorValue)
      ensures offsetTarget == (if graph then currentValue else old(offsetTarget))
      ensures updates == if Abs(currentValue - old(currentValue)) > Tolerance then old(updates) + subscribers else old(updates)
    {
      var safe := SafeFactor(v);
      factorValue := safe;
      if |base.params| > 1 {
        var paramRef := base.params[1];
        if !fromAutomation {
          paramRef := paramRef.(value := Number(Fin(safe)));
        }
        paramRef := paramRef.(effectiveValue := Number(Fin(safe)));
        base.params := base.params[1 := paramRef];
      }
      UpdateOutput();
    }

    /** `getValue()` */
    method GetValue() returns (v: real)
      ensures v == currentValue
    {
      v := currentValue;
    }

    /** `addSubscriber(node, paramIndex)` */
    method AddSubscriber(node: D.NodeId, paramIndex: nat)
      modifies this`subscribers
      ensures subscribers == old(subscribers) + [Subscriber(node, paramIndex)]
    {
      subscribers := subscribers + [Subscriber(node, paramIndex)];
    }

    /** `removeSubscriber(node, paramIndex)` */
    method RemoveSubscriber(node: D.NodeId, paramIndex: nat)
      modifies this`subscribers
      ensures subscribers == Removed(old(subscribers), node, paramIndex)
    {
      subscribers := Removed(subscribers, node, paramIndex);
    }

    /** The state part of `onRemoved`: no constant source, no subscribers, value 0. */
    method OnRemoved()
      modifies this`graph, this`subscribers, this`currentValue
      ensures !graph && subscribers == [] && currentValue == 0.0
    {
      graph := false;
      subscribers := [];
      currentValue := 0.0;
    }
  }
}
