/**
 * SampleHoldNodeUI of js/nodes/samplehold-node.js, the control-thread
 * side of the sample-and-hold: its frequency sanitiser, the frequency
 * parameter's change handler (which tells automation from manual edits),
 * the held value reported by the worklet and the subscribers that are
 * told when it changes.
 *
 * The object is modelled after `initAudio`: `base` is its DSPNode part,
 * whose `params[0]` is the frequency parameter. The worklet's AudioParam
 * writes (`updateFrequencyParam`) and the bypass wiring are not part of
 * this model.
 */
module SampleHoldNode {
  import opened JsValues
  import opened Subscribers
  import D = DspNode
  import Worklet = SampleHold

  const DefaultFrequency: real := 1000.0
  const MinFrequency: real := 0.1
  const MaxFrequency: real := 20000.0

  /** Changes smaller than this are treated as no change. */
  const Tolerance: real := 0.000001

  /**
   * `SampleHoldNodeUI.sanitizeFrequency`: 1000 for anything that is not a
   * finite number, 0 for a value ≤ 0, otherwise the value clamped to
   * [0.1, 20000].
   */
  function SanitizeFrequency(value: Val): (f: real)
    ensures !(value.Number? && value.n.Fin?) ==> f == DefaultFrequency
    ensures value.Number? && value.n.Fin? && value.n.v <= 0.0 ==> f == 0.0
    ensures value.Number? && value.n.Fin? && value.n.v > 0.0 ==>
      MinFrequency <= f <= MaxFrequency
      && (MinFrequency <= value.n.v <= MaxFrequency ==> f == value.n.v)
      && (value.n.v < MinFrequency ==> f == MinFrequency)
      && (value.n.v > MaxFrequency ==> f == MaxFrequency)
  {
    if !(value.Number? && value.n.Fin?) then DefaultFrequency
    else if value.n.v <= 0.0 then 0.0
    else if value.n.v < MinFrequency then MinFrequency
    else if value.n.v > MaxFrequency then MaxFrequency
    else value.n.v
  }

  /** A sanitised frequency comes back unchanged: the sanitiser is idempotent. */
  lemma SanitizeFrequencyIdempotent(value: Val)
    ensures SanitizeFrequency(Number(Fin(SanitizeFrequency(value)))) == SanitizeFrequency(value)
  {
  }

  /**
   * At any sample rate of 40 kHz or more the node's sanitiser and the
   * worklet's `_sanitizeFrequency` give the same frequency for a number.
   */
  lemma SanitizersAgree(n: Num, sampleRate: real)
    requires sampleRate >= 2.0 * MaxFrequency
    ensures SanitizeFrequency(Number(n)) == Worklet.SanitizeFrequency(n, sampleRate)
  {
    assert Worklet.MaxHz(sampleRate) == MaxFrequency;
  }

  /** `Math.abs(next - base) > 1e-6` for a number `base`; false when base is NaN. */
  predicate Departs(next: real, base: Num) {
    Less(Fin(Tolerance), AbsNum(Add(Fin(next), Neg(base))))
  }

  /**
   * The automation test of `setFrequency`: the caller's flag, or else a
   * sanitised value that differs from the parameter's own value.
   */
  predicate IsAutomation(fromAutomation: bool, params: seq<D.Param>, next: real, parse: string -> Num) {
    fromAutomation || (|params| > 0 && Departs(next, ToNumber(params[0].value, parse)))
  }

  /** The value `setFrequency` stores in the parameter on a manual change: 0.1 stands in for 0. */
  function ParamFrequency(next: real): (v: real)
    ensures next > 0.0 ==> v == next
    ensures next <= 0.0 ==> v == MinFrequency
  {
    if next > 0.0 then next else MinFrequency
  }

  class Node {
    /** The DSPNode part of this object. */
    const base: D.Node
    var frequency: real
    var effectiveFrequency: real
    var heldValue: real
    var subscribers: seq<Subscriber>
    /** The `updateParam` calls made on subscribers so far, oldest first. */
    var updates: seq<Subscriber>
    var title: string

    constructor(base: D.Node)
      ensures this.base == base
      ensures frequency == DefaultFrequency && effectiveFrequency == DefaultFrequency
      ensures heldValue == 0.0 && subscribers == [] && updates == [] && title == "Sample & Hold"
    {
      this.base := base;
      frequency := DefaultFrequency;
      effectiveFrequency := DefaultFrequency;
      heldValue := 0.0;
      subscribers := [];
      updates := [];
      title := "Sample & Hold";
    }

    /**
     * `setFrequency(value, ctx, meta)`. On automation only the effective
     * frequency moves (and not at all within 1e-6 of its current value);
     * a manual change moves the frequency, the effective frequency and
     * the parameter's value together.
     */
    method SetFrequency(value: Val, fromAutomation: bool, parse: string -> Num)
      modifies this`frequency, this`effectiveFrequency, base`params
      ensures var next := SanitizeFrequency(value);
        var automation := IsAutomation(fromAutomation, old(base.params), next, parse);
        var moved := if automation then Abs(next - old(effectiveFrequency)) >= Tolerance else true;
        var manual := !automation && Abs(next - old(frequency)) >= Tolerance;
        && frequency == (if manual then next else old(frequency))
        && effectiveFrequency == (if moved then next else old(effectiveFrequency))
        && base.params == if |old(base.params)| == 0 then old(base.params) else old(base.params)[0 := old(base.params)[0].(
             value := if manual then Number(Fin(ParamFrequency(next))) else old(base.params)[0].value,
             effectiveValue := if moved then Number(Fin(next)) else old(base.params)[0].effectiveValue)]
    {
      var next := SanitizeFrequency(value);
      var hasParam := |base.params| > 0;
      var baseValue := if hasParam then ToNumber(base.params[0].value, parse) else Fin(frequency);
      var inferredAutomation := if !fromAutomation && hasParam then Departs(next, baseValue) else false;
      var isAutomation := fromAutomation || inferredAutomation;

      if isAutomation {
        if Abs(next - effectiveFrequency) < Tolerance {
          return;
        }
        effectiveFrequency := next;
        if hasParam {
          base.params := base.params[0 := base.params[0].(effectiveValue := Number(Fin(next)))];
        }
        return;
      }

      if Abs(next - frequency) < Tolerance {
        effectiveFrequency := next;
        if hasParam {
          base.params := base.params[0 := base.params[0].(effectiveValue := Number(Fin(next)))];
        }
        return;
      }

      frequency := next;
      effectiveFrequency := next;
      if hasParam {
        base.params := base.params[0 := base.params[0].(value := Number(Fin(ParamFrequency(next))),
                                                        effectiveValue := Number(Fin(next)))];
      }
    }

    /**
     * `updateHeldValue(value)`: a finite value at least 1e-6 away from
     * the held one replaces it and every subscriber is asked to update,
     * once each, in list order; anything else changes nothing.
     */
    method UpdateHeldValue(value: Num)
      modifies this
      ensures var taken := value.Fin? && Abs(value.v - old(heldValue)) >= Tolerance;
        && heldValue == (if taken then value.v else old(heldValue))
        && updates == (if taken then old(updates) + subscribers else old(updates))
      ensures subscribers == old(subscribers) && title == old(title)
      ensures frequency == old(frequency) && effectiveFrequency == old(effectiveFrequency)
    {
      if !value.Fin? {
        return;
      }
      if Abs(value.v - heldValue) < Tolerance {
        return;
      }
      heldValue := value.v;
      updates := updates + subscribers;
    }

    /** `handleWorkletMessage(data)`: a number, or an object whose `value` is a number; anything else is ignored. */
    method HandleWorkletMessage(data: Val)
      modifies this
      ensures var reported := if data.Number? then Some(data.n)
                              else if Truthy(data) && Get(data, "value").Number? then Some(Get(data, "value").n)
                              else None;
        && (reported.None? ==> heldValue == old(heldValue) && updates == old(updates))
        && (reported.Some? ==>
              var taken := reported.value.Fin? && Abs(reported.value.v - old(heldValue)) >= Tolerance;
              && heldValue == (if taken then reported.value.v else old(heldValue))
              && updates == (if taken then old(updates) + subscribers else old(updates)))
      ensures subscribers == old(subscribers) && title == old(title)
      ensures frequency == old(frequency) && effectiveFrequency == old(effectiveFrequency)
    {
      if data.Number? {
        UpdateHeldValue(data.n);
        return;
      }
      if Truthy(data) && Get(data, "value").Number? {
        UpdateHeldValue(Get(data, "value").n);
      }
    }

    /** `getValue()` */
    method GetValue() returns (v: real)
      ensures v == heldValue
    {
      v := heldValue;
    }

    /** `addSubscriber(node, paramIndex)` */
    method AddSubscriber(node: D.NodeId, paramIndex: nat)
      modifies this
      ensures subscribers == old(subscribers) + [Subscriber(node, paramIndex)]
      ensures heldValue == old(heldValue) && updates == old(updates) && title == old(title)
      ensures frequency == old(frequency) && effectiveFrequency == old(effectiveFrequency)
    {
      subscribers := subscribers + [Subscriber(node, paramIndex)];
    }

    /** `removeSubscriber(node, paramIndex)` */
    method RemoveSubscriber(node: D.NodeId, paramIndex: nat)
      modifies this
      ensures subscribers == Removed(old(subscribers), node, paramIndex)
      ensures heldValue == old(heldValue) && updates == old(updates) && title == old(title)
      ensures frequency == old(frequency) && effectiveFrequency == old(effectiveFrequency)
    {
      subscribers := Removed(subscribers, node, paramIndex);
    }

    /** The state part of `onRemoved`: no held value, no subscribers, the base title. */
    method OnRemoved()
      modifies this
      ensures heldValue == 0.0 && subscribers == [] && title == "Sample & Hold"
      ensures updates == old(updates)
      ensures frequency == old(frequency) && effectiveFrequency == old(effectiveFrequency)
    {
      heldValue := 0.0;
      subscribers := [];
      title := "Sample & Hold";
    }
  }
}
