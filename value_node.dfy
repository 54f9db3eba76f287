/**
 * ValueNodeUI of js/nodes/value-node.js: a constant control source whose
 * value is its one parameter, optionally converted from samples to
 * milliseconds, and whose title, slider settings and conversion are saved
 * with the patch and restored from it.
 *
 * `base` is the node's DSPNode part; `title` is DSPNode's title, kept
 * here as a dynamic value because saved data may set it to anything. The
 * audio context's sample rate is a parameter (None when there is no app
 * or context). The constant source's offset writes are modelled as the
 * target they set.
 */
module ValueNode {
  import opened JsValues
  import opened Subscribers
  import D = DspNode

  const DefaultTitle: Val := Str("Value")

  /** The slider `initAudio` installs: 0 to 2, linear, value 1, with a handler. */
  const ValueParam: D.Param := D.Param("Value", Number(Fin(0.0)), Number(Fin(2.0)), Undefined, Str("linear"), Undefined,
                                       Number(Fin(1.0)), Undefined, Undefined, Undefined, Undefined, true)
  const FallbackSampleRate: real := 44100.0

  // ---------------------------------------------------------------------
  // Object spread

  /** The decimal digits of n, the property key of array index n. */
  function IndexKey(n: nat): (s: string)
    ensures |s| >= 1
    decreases n
  {
    var d := ['0', '1', '2', '3', '4', '5', '6', '7', '8', '9'];
    if n < 10 then [d[n]] else IndexKey(n / 10) + [d[n % 10]]
  }

  /** The index-keyed fields of the first n items: `{0: items[0], 1: items[1], ...}`. */
  function IndexFields(items: seq<Val>, n: nat): map<string, Val>
    requires n <= |items|
  {
    if n == 0 then map[] else IndexFields(items, n - 1)[IndexKey(n - 1) := items[n - 1]]
  }

  /** The one-character strings of s. */
  function Chars(s: string): (r: seq<Val>)
    ensures |r| == |s|
  {
    seq(|s|, i requires 0 <= i < |s| => Str([s[i]]))
  }

  /**
   * `{ ...x }`: an object's own fields; an array's items and a string's
   * characters under their index keys; nothing for any other value.
   */
  function Spread(x: Val): (r: Val)
    ensures r.Obj?
    ensures x.Obj? ==> r == x
  {
    match x
    case Obj(fields) => x
    case Arr(items) => Obj(IndexFields(items, |items|))
    case Str(s) => Obj(IndexFields(Chars(s), |s|))
    case _ => Obj(map[])
  }

  /** `x[0]` */
  function Index0(x: Val): Val {
    match x
    case Obj(_) => Get(x, "0")
    case Arr(items) => if |items| > 0 then items[0] else Undefined
    case Str(s) => if |s| > 0 then Str([s[0]]) else Undefined
    case _ => Undefined
  }

  // ---------------------------------------------------------------------
  // The value and its conversion

  /** The sample rate `applyValueTransform` divides by: the host's when truthy, else 44100. */
  function SampleRate(hostRate: Option<Num>): (r: Num)
    ensures hostRate.Some? && Truthy(Number(hostRate.value)) ==> r == hostRate.value
    ensures !(hostRate.Some? && Truthy(Number(hostRate.value))) ==> r == Fin(FallbackSampleRate)
  {
    if hostRate.Some? && Truthy(Number(hostRate.value)) then hostRate.value else Fin(FallbackSampleRate)
  }

  /** Whether a stored transform asks for the samples-to-milliseconds conversion. */
  predicate ConvertsSamples(transform: Val) {
    Truthy(transform) && Truthy(Get(transform, "type")) && Get(transform, "type") == Str("samplesToMs")
  }

  /**
   * `applyValueTransform(value)`: `(value / sampleRate) * 1000` for the
   * 'samplesToMs' transform; the value itself for no transform, a
   * transform without a type, or a type it does not know.
   */
  function ApplyValueTransform(value: Num, transform: Val, hostRate: Option<Num>): (r: Num)
    ensures !ConvertsSamples(transform) ==> r == value
  {
    if !Truthy(transform) || !Truthy(Get(transform, "type")) then value
    else if Get(transform, "type") == Str("samplesToMs") then Mul(Div(value, SampleRate(hostRate)), Fin(1000.0))
    else value
  }

  /**
   * For a finite value and a finite positive rate the conversion gives
   * value / rate seconds in milliseconds, and converting back gives the
   * sample count again.
   */
  lemma SamplesToMsRoundTrip(value: real, transform: Val, hostRate: Option<Num>)
    requires ConvertsSamples(transform)
    requires SampleRate(hostRate).Fin? && SampleRate(hostRate).v > 0.0
    ensures var r := ApplyValueTransform(Fin(value), transform, hostRate);
      r.Fin? && r.v == value / SampleRate(hostRate).v * 1000.0
      && r.v / 1000.0 * SampleRate(hostRate).v == value
  {
  }

  /**
   * Without a truthy host rate the conversion divides by the fallback
   * rate of 44100: a finite value v gives v / 44.1 ms, so 44100 samples
   * are exactly one second.
   */
  lemma FallbackRateConversion(value: real, transform: Val, hostRate: Option<Num>)
    requires ConvertsSamples(transform)
    requires !(hostRate.Some? && Truthy(Number(hostRate.value)))
    ensures ApplyValueTransform(Fin(value), transform, hostRate) == Fin(value / FallbackSampleRate * 1000.0)
    ensures value == 44100.0 ==> ApplyValueTransform(Fin(value), transform, hostRate) == Fin(1000.0)
  {
  }

  /**
   * `getValue()`: 1 without a parameter; otherwise the parameter's
   * effective value if it is a number, else its value if that is a
   * number, else 1, passed through the transform.
   */
  function GetValue(params: seq<D.Param>, transform: Val, hostRate: Option<Num>): (r: Num)
    ensures |params| == 0 ==> r == Fin(1.0)
    ensures |params| > 0 && !ConvertsSamples(transform) ==>
      r == (if params[0].effectiveValue.Number? then params[0].effectiveValue.n
            else if params[0].value.Number? then params[0].value.n
            else Fin(1.0))
  {
    if |params| == 0 then Fin(1.0)
    else
      var param := params[0];
      var base := if param.effectiveValue.Number? then param.effectiveValue.n
                  else if param.value.Number? then param.value.n
                  else Fin(1.0);
      ApplyValueTransform(base, transform, hostRate)
  }

  /**
   * `setValueTransform(transform)`: null for a falsy argument, `{type: s}`
   * for a string, a shallow copy of anything else.
   */
  function NewTransform(transform: Val): (r: Val)
    ensures !Truthy(transform) ==> r == Null
    ensures Truthy(transform) && transform.Str? ==> r == Obj(map["type" := transform])
    ensures Truthy(transform) && transform.Obj? ==> r == transform
  {
    if !Truthy(transform) then Null
    else if transform.Str? then Obj(map["type" := transform])
    else Spread(transform)
  }

  /** Setting a transform by its name makes `getValue` convert exactly when the name is 'samplesToMs'. */
  lemma NamedTransform(name: string)
    requires name != ""
    ensures ConvertsSamples(NewTransform(Str(name))) <==> name == "samplesToMs"
  {
  }

  // ---------------------------------------------------------------------
  // Saved data

  /** The slider settings `getExtraData` saves when they differ from the defaults. */
  function Overrides(p: D.Param): (o: map<string, Val>)
    ensures "label" in o <==> p.caption != "Value"
    ensures "min" in o <==> p.min != Number(Fin(0.0))
    ensures "max" in o <==> p.max != Number(Fin(2.0))
    ensures "step" in o <==> p.step != Undefined
    ensures "scale" in o <==> Truthy(p.scale) && p.scale != Str("linear")
    ensures o.Keys <= {"label", "min", "max", "step", "scale"}
  {
    var o0: map<string, Val> := map[];
    var o1 := if p.caption != "Value" then o0["label" := Str(p.caption)] else o0;
    var o2 := if p.min != Number(Fin(0.0)) then o1["min" := p.min] else o1;
    var o3 := if p.max != Number(Fin(2.0)) then o2["max" := p.max] else o2;
    var o4 := if p.step != Undefined then o3["step" := p.step] else o3;
    if Truthy(p.scale) && p.scale != Str("linear") then o4["scale" := p.scale] else o4
  }

  /**
   * `getExtraData()`: DSPNode's record, plus the title when it is not
   * 'Value', the first parameter's differing slider settings under
   * `paramOverrides[0]`, and a copy of the transform; null when empty.
   */
  function ExtraData(params: seq<D.Param>, title: Val, transform: Val): (r: Val)
    ensures r.Null? || r.Obj?
    ensures r.Null? <==> D.ExtraData(params).Null? && title == DefaultTitle && !Truthy(transform)
                         && (|params| == 0 || |Overrides(params[0])| == 0)
  {
    var e := RecordFields(params, title, transform);
    if |e| > 0 then Obj(e) else Null
  }

  /** The value of a saved key, or the current value when the key is absent. */
  function FieldOr(o: map<string, Val>, key: string, current: Val): Val {
    if key in o then o[key] else current
  }

  /**
   * `Object.assign(param, overrides)` on the parameter's modelled fields;
   * a label is taken when it is a string. An array or string has only
   * index keys, which name none of these fields.
   */
  function Assign(p: D.Param, overrides: Val): (r: D.Param)
    ensures !overrides.Obj? ==> r == p
  {
    if !overrides.Obj? then p
    else
      var o := overrides.fields;
      p.(caption := if "label" in o && o["label"].Str? then o["label"].s else p.caption,
         min := FieldOr(o, "min", p.min),
         max := FieldOr(o, "max", p.max),
         step := FieldOr(o, "step", p.step),
         scale := FieldOr(o, "scale", p.scale),
         power := FieldOr(o, "power", p.power),
         value := FieldOr(o, "value", p.value),
         defaultValue := FieldOr(o, "defaultValue", p.defaultValue),
         modulationStrategy := FieldOr(o, "modulationStrategy", p.modulationStrategy),
         defaultModulationStrategy := FieldOr(o, "defaultModulationStrategy", p.defaultModulationStrategy),
         effectiveValue := FieldOr(o, "effectiveValue", p.effectiveValue))
  }

  datatype State = State(params: seq<D.Param>, title: Val, transform: Val)

  /**
   * `restoreExtraData(data)`: DSPNode's strategies first; then, for
   * truthy data, a truthy title, the first parameter's overrides and a
   * copy of a truthy transform.
   */
  function Restore(s: State, data: Val): (r: State)
    ensures |r.params| == |s.params|
    ensures !Truthy(data) ==> r == s
  {
    var ps := D.Restored(s.params, data);
    if !Truthy(data) then s.(params := ps)
    else
      var title := if Truthy(Get(data, "title")) then Get(data, "title") else s.title;
      var overrides := Index0(Get(data, "paramOverrides"));
      var ps' := if Truthy(Get(data, "paramOverrides")) && Truthy(overrides) && |ps| > 0
                 then ps[0 := Assign(ps[0], overrides)] else ps;
      var transform := if Truthy(Get(data, "valueTransform")) then Spread(Get(data, "valueTransform")) else s.transform;
      State(ps', title, transform)
  }

  /** A parameter as `initAudio` creates it, before anything is restored. */
  predicate FreshSlider(p: D.Param) {
    p.caption == "Value" && p.min == Number(Fin(0.0)) && p.max == Number(Fin(2.0))
    && p.step == Undefined && p.scale == Str("linear")
  }

  /** The saved slider settings of a parameter. */
  predicate SameSlider(p: D.Param, q: D.Param) {
    p.caption == q.caption && p.min == q.min && p.max == q.max && p.step == q.step && p.scale == q.scale
  }

  /** The parameter record with `paramOverrides` applied, as the round trip sees it. */
  lemma AssignOverrides(q: D.Param, p: D.Param)
    requires FreshSlider(q) && Truthy(p.scale)
    ensures SameSlider(Assign(q, Obj(Overrides(p))), p)
    ensures Assign(q, Obj(Overrides(p))).modulationStrategy == q.modulationStrategy
  {
    var o := Overrides(p);
    assert "modulationStrategy" !in o;
    assert "label" in o ==> o["label"] == Str(p.caption);
  }

  /** DSPNode's restore touches only the parameters' modulation strategies. */
  lemma {:induction false} RecordsKeepSliders(ps: seq<D.Param>, records: seq<Val>, n: nat)
    requires n <= |records|
    ensures forall i :: 0 <= i < |ps| ==>
      D.ApplyRecords(ps, records, n)[i] == ps[i].(modulationStrategy := D.ApplyRecords(ps, records, n)[i].modulationStrategy)
  {
    if n > 0 {
      RecordsKeepSliders(ps, records, n - 1);
    }
  }

  lemma RestoredKeepsSliders(ps: seq<D.Param>, data: Val)
    ensures forall i :: 0 <= i < |ps| ==>
      D.Restored(ps, data)[i] == ps[i].(modulationStrategy := D.Restored(ps, data)[i].modulationStrategy)
  {
    if Truthy(data) {
      RecordsKeepSliders(ps, D.StrategyList(data), |D.StrategyList(data)|);
    }
  }

  /** The keys of the saved record before the null check, the body of `getExtraData`. */
  function RecordFields(params: seq<D.Param>, title: Val, transform: Val): map<string, Val> {
    RecordFieldsFrom(D.ExtraData(params), title, transform, if |params| > 0 then Overrides(params[0]) else map[])
  }

  /**
   * The record built on the DSPNode part `base`: the title when it is
   * not the default, the first parameter's slider overrides `ov` when
   * there are any, and a copy of a truthy transform.
   */
  function RecordFieldsFrom(base: Val, title: Val, transform: Val, ov: map<string, Val>): map<string, Val> {
    var e0 := if Truthy(base) && base.Obj? then base.fields else map[];
    var e1 := if title != DefaultTitle then e0["title" := title] else e0;
    var e2 := if |ov| > 0 then e1["paramOverrides" := Obj(map["0" := Obj(ov)])] else e1;
    if Truthy(transform) then e2["valueTransform" := Spread(transform)] else e2
  }

  /** The record of the DSPNode part has the one key `paramStrategies`. */
  lemma BaseKeys(params: seq<D.Param>)
    ensures D.ExtraData(params).Obj? ==> D.ExtraData(params).fields.Keys == {"paramStrategies"}
  {
  }

  /** The title key is there exactly for a title other than the default, and holds it. */
  lemma TitleFrom(base: Val, title: Val, transform: Val, ov: map<string, Val>)
    requires base.Obj? ==> base.fields.Keys == {"paramStrategies"}
    ensures var e := RecordFieldsFrom(base, title, transform, ov);
      ("title" in e ==> title != DefaultTitle && e["title"] == title) && (title != DefaultTitle ==> "title" in e)
  {
    var e0 := if Truthy(base) && base.Obj? then base.fields else map[];
    assert "title" !in e0;
  }

  /** The transform key is there exactly for a truthy transform, and holds its copy. */
  lemma TransformFrom(base: Val, title: Val, transform: Val, ov: map<string, Val>)
    requires base.Obj? ==> base.fields.Keys == {"paramStrategies"}
    ensures var e := RecordFieldsFrom(base, title, transform, ov);
      ("valueTransform" in e ==> Truthy(transform) && e["valueTransform"] == Spread(transform))
      && (Truthy(transform) ==> "valueTransform" in e)
  {
    var e0 := if Truthy(base) && base.Obj? then base.fields else map[];
    var e1 := if title != DefaultTitle then e0["title" := title] else e0;
    var e2 := if |ov| > 0 then e1["paramOverrides" := Obj(map["0" := Obj(ov)])] else e1;
    assert "valueTransform"[0] != "paramOverrides"[0];
    assert "valueTransform" !in e2;
  }

  /** The overrides key is there exactly when there are overrides, and holds them under "0". */
  lemma OverridesFrom(base: Val, title: Val, transform: Val, ov: map<string, Val>)
    requires base.Obj? ==> base.fields.Keys == {"paramStrategies"}
    ensures var e := RecordFieldsFrom(base, title, transform, ov);
      ("paramOverrides" in e ==> |ov| > 0 && e["paramOverrides"] == Obj(map["0" := Obj(ov)]))
      && (|ov| > 0 ==> "paramOverrides" in e)
  {
    var e0 := if Truthy(base) && base.Obj? then base.fields else map[];
    assert "paramOverrides" !in e0;
  }

  /** The strategies key reads as the base's. */
  lemma StrategiesFrom(base: Val, title: Val, transform: Val, ov: map<string, Val>)
    ensures Get(Obj(RecordFieldsFrom(base, title, transform, ov)), "paramStrategies") == Get(base, "paramStrategies")
  {
    var e0 := if Truthy(base) && base.Obj? then base.fields else map[];
    var e1 := if title != DefaultTitle then e0["title" := title] else e0;
    var e2 := if |ov| > 0 then e1["paramOverrides" := Obj(map["0" := Obj(ov)])] else e1;
    GetOther(e0, "paramStrategies", "title", title);
    GetOther(e1, "paramStrategies", "paramOverrides", Obj(map["0" := Obj(ov)]));
    GetOther(e2, "paramStrategies", "valueTransform", Spread(transform));
  }

  /** Setting one key of a record leaves every other key as it was. */
  lemma GetOther(m: map<string, Val>, key: string, other: string, v: Val)
    requires key != other
    ensures Get(Obj(m[other := v]), key) == Get(Obj(m), key)
  {
  }

  lemma TitleField(params: seq<D.Param>, title: Val, transform: Val)
    ensures var e := RecordFields(params, title, transform);
      ("title" in e ==> title != DefaultTitle && e["title"] == title) && (title != DefaultTitle ==> "title" in e)
  {
    BaseKeys(params);
    TitleFrom(D.ExtraData(params), title, transform, if |params| > 0 then Overrides(params[0]) else map[]);
  }

  lemma TransformField(params: seq<D.Param>, title: Val, transform: Val)
    ensures var e := RecordFields(params, title, transform);
      ("valueTransform" in e ==> Truthy(transform) && e["valueTransform"] == Spread(transform)) && (Truthy(transform) ==> "valueTransform" in e)
  {
    BaseKeys(params);
    TransformFrom(D.ExtraData(params), title, transform, if |params| > 0 then Overrides(params[0]) else map[]);
  }

  lemma StrategiesField(params: seq<D.Param>, title: Val, transform: Val)
    ensures Get(Obj(RecordFields(params, title, transform)), "paramStrategies") == Get(D.ExtraData(params), "paramStrategies")
  {
    StrategiesFrom(D.ExtraData(params), title, transform, if |params| > 0 then Overrides(params[0]) else map[]);
  }

  lemma OverridesField(params: seq<D.Param>, title: Val, transform: Val)
    ensures var e := RecordFields(params, title, transform);
      ("paramOverrides" in e ==> |params| > 0 && |Overrides(params[0])| > 0 && e["paramOverrides"] == Obj(map["0" := Obj(Overrides(params[0]))]))
      && (|params| > 0 && |Overrides(params[0])| > 0 ==> "paramOverrides" in e)
  {
    BaseKeys(params);
    OverridesFrom(D.ExtraData(params), title, transform, if |params| > 0 then Overrides(params[0]) else map[]);
  }

  /** What each key of the saved record holds. */
  lemma ExtraDataFields(params: seq<D.Param>, title: Val, transform: Val)
    requires ExtraData(params, title, transform).Obj?
    ensures var r := ExtraData(params, title, transform);
      && Get(r, "title") == (if title != DefaultTitle then title else Undefined)
      && Get(r, "valueTransform") == (if Truthy(transform) then Spread(transform) else Undefined)
      && Get(r, "paramStrategies") == Get(D.ExtraData(params), "paramStrategies")
      && Get(r, "paramOverrides") == (if |params| > 0 && |Overrides(params[0])| > 0
                                      then Obj(map["0" := Obj(Overrides(params[0]))]) else Undefined)
  {
    assert ExtraData(params, title, transform) == Obj(RecordFields(params, title, transform));
    TitleField(params, title, transform);
    TransformField(params, title, transform);
    StrategiesField(params, title, transform);
    OverridesField(params, title, transform);
  }

  /** DSPNode's part of the record restores the same strategies whether or not the Value node adds keys. */
  lemma StrategiesSurvive(saved: State, blank: State)
    requires |blank.params| == |saved.params|
    requires forall i :: 0 <= i < |blank.params| ==> D.Current(blank.params[i]) == D.Default(saved.params[i])
    ensures var data := ExtraData(saved.params, saved.title, saved.transform);
      forall i :: 0 <= i < |blank.params| ==> D.Current(D.Restored(blank.params, data)[i]) == D.Current(saved.params[i])
  {
    var data := ExtraData(saved.params, saved.title, saved.transform);
    D.ExtraDataRoundTrip(saved.params, blank.params);
    D.ExtraDataNull(saved.params);
    if data.Obj? {
      RestoresAsBase(blank.params, saved);
    }
  }

  /** A saved record restores the strategies exactly as DSPNode's part of it alone would. */
  lemma RestoresAsBase(ps: seq<D.Param>, saved: State)
    requires ExtraData(saved.params, saved.title, saved.transform).Obj?
    ensures D.Restored(ps, ExtraData(saved.params, saved.title, saved.transform)) == D.Restored(ps, D.ExtraData(saved.params))
  {
    var data := ExtraData(saved.params, saved.title, saved.transform);
    var base := D.ExtraData(saved.params);
    ExtraDataFields(saved.params, saved.title, saved.transform);
    assert D.StrategyList(data) == D.StrategyList(base);
    if base.Null? {
      assert D.Restored(ps, data) == ps;
    }
  }

  /** Restoring the first parameter's overrides reproduces its slider settings and keeps its strategy. */
  lemma SliderSurvives(saved: State, ps: seq<D.Param>)
    requires |saved.params| > 0 && |ps| == |saved.params|
    requires Truthy(saved.params[0].scale) && FreshSlider(ps[0])
    requires ExtraData(saved.params, saved.title, saved.transform).Obj?
    ensures var data := ExtraData(saved.params, saved.title, saved.transform);
      var overrides := Index0(Get(data, "paramOverrides"));
      var r := if Truthy(Get(data, "paramOverrides")) && Truthy(overrides) then ps[0 := Assign(ps[0], overrides)] else ps;
      SameSlider(r[0], saved.params[0]) && forall i :: 0 <= i < |r| ==> D.Current(r[i]) == D.Current(ps[i])
  {
    ExtraDataFields(saved.params, saved.title, saved.transform);
    var o := Overrides(saved.params[0]);
    if |o| > 0 {
      AssignOverrides(ps[0], saved.params[0]);
    }
  }

  /**
   * Saving a Value node and restoring the record onto a freshly created
   * one reproduces its title, its slider settings, its transform and
   * every parameter's modulation strategy, provided the title and the
   * scale are truthy (a falsy title or scale is saved but not restored).
   */
  lemma ExtraDataRoundTrip(saved: State, blank: State)
    requires |saved.params| > 0 && |blank.params| == |saved.params|
    requires Truthy(saved.title) && Truthy(saved.params[0].scale)
    requires saved.transform.Null? || saved.transform.Obj?
    requires blank.title == DefaultTitle && blank.transform == Null && FreshSlider(blank.params[0])
    requires forall i :: 0 <= i < |blank.params| ==> D.Current(blank.params[i]) == D.Default(saved.params[i])
    ensures var r := Restore(blank, ExtraData(saved.params, saved.title, saved.transform));
      && r.title == saved.title
      && r.transform == saved.transform
      && SameSlider(r.params[0], saved.params[0])
      && forall i :: 0 <= i < |r.params| ==> D.Current(r.params[i]) == D.Current(saved.params[i])
  {
    var data := ExtraData(saved.params, saved.title, saved.transform);
    StrategiesSurvive(saved, blank);
    var ps := D.Restored(blank.params, data);
    if data.Null? {
      assert |Overrides(saved.params[0])| == 0;
      assert SameSlider(blank.params[0], saved.params[0]);
    } else {
      ExtraDataFields(saved.params, saved.title, saved.transform);
      assert ps[0].caption == blank.params[0].caption && ps[0].min == blank.params[0].min && ps[0].max == blank.params[0].max
        && ps[0].step == blank.params[0].step && ps[0].scale == blank.params[0].scale by {
        RestoredKeepsSliders(blank.params, data);
      }
      SliderSurvives(saved, ps);
    }
  }

  class Node {
    /** The DSPNode part of this object. */
    const base: D.Node
    var title: Val
    var valueTransform: Val
    var subscribers: seq<Subscriber>
    /** The `updateParam` calls made on subscribers so far, oldest first. */
    var updates: seq<Subscriber>
    /** The constant source exists. */
    var graph: bool
    /** The target last given to the constant source's offset. */
    var offsetTarget: Num

    constructor(base: D.Node)
      ensures this.base == base && title == DefaultTitle && valueTransform == Null
      ensures subscribers == [] && updates == [] && !graph
    {
      this.base := base;
      title := DefaultTitle;
      valueTransform := Null;
      subscribers := [];
      updates := [];
      graph := false;
      offsetTarget := Fin(1.0);
    }

    /**
     * `initAudio`: the constant source exists with offset 1, the one
     * slider (0 to 2, linear, value 1, with a handler) replaces the
     * parameters, and `initializeParams` settles it and runs its handler
     * once with the settled value: the offset targets that value and
     * every subscriber is told. Without modulators on parameter 0 the
     * value is the slider's 1.
     */
    method InitAudio(values: map<D.NodeId, Val>)
      modifies this`graph, this`offsetTarget, this`updates, base
      ensures graph
      ensures base.params == D.SettledAll(D.DefaultedAll([ValueParam]), base.paramModulators, values)
      ensures |base.params| == 1 && base.params[0].effectiveValue.Number?
      ensures offsetTarget == base.params[0].effectiveValue.n
      ensures D.ModsAt(old(base.paramModulators), 0) == [] ==> offsetTarget == Fin(1.0)
      ensures updates == old(updates) + subscribers
    {
      graph := true;
      offsetTarget := Fin(1.0);
      base.params := [ValueParam];
      base.InitializeParams(values);
      var p := D.Defaulted(ValueParam);
      assert base.params[0] == D.Settled(p, base.paramModulators, 0, values);
      if D.ModsAt(old(base.paramModulators), 0) == [] {
        assert D.ModsAt(base.paramModulators, 0) == [];
      }
      OnValueChange(base.params[0].effectiveValue.n);
    }

    /** The value parameter's handler: the offset follows and every subscriber is told. */
    method OnValueChange(v: Num)
      modifies this`offsetTarget, this`updates
      ensures offsetTarget == (if graph then v else old(offsetTarget))
      ensures updates == old(updates) + subscribers
    {
      if graph {
        offsetTarget := v;
      }
      updates := updates + subscribers;
    }

    /** `getValue()` with the host's sample rate. */
    method GetValueNow(hostRate: Option<Num>) returns (v: Num)
      ensures v == GetValue(base.params, valueTransform, hostRate)
    {
      if |base.params| == 0 {
        return Fin(1.0);
      }
      var param := base.params[0];
      var b := if param.effectiveValue.Number? then param.effectiveValue.n
               else if param.value.Number? then param.value.n
               else Fin(1.0);
      v := ApplyValueTransform(b, valueTransform, hostRate);
    }

    /** `setValueTransform(transform)`: every subscriber is told. */
    method SetValueTransform(transform: Val)
      modifies this`valueTransform, this`updates
      ensures valueTransform == NewTransform(transform)
      ensures updates == old(updates) + subscribers
    {
      if !Truthy(transform) {
        valueTransform := Null;
      } else if transform.Str? {
        valueTransform := Obj(map["type" := transform]);
      } else {
        valueTransform := Spread(transform);
      }
      updates := updates + subscribers;
    }

    /** `getExtraData()` */
    method GetExtraData() returns (r: Val)
      ensures r == ExtraData(base.params, title, valueTransform)
    {
      r := ExtraData(base.params, title, valueTransform);
    }

    /** `restoreExtraData(data)` */
    method RestoreExtraData(data: Val)
      modifies this`title, this`valueTransform, base`params
      ensures State(base.params, title, valueTransform) == Restore(State(old(base.params), old(title), old(valueTransform)), data)
    {
      base.params := D.Restored(base.params, data);
      if !Truthy(data) {
        return;
      }
      if Truthy(Get(data, "title")) {
        title := Get(data, "title");
      }
      var po := Get(data, "paramOverrides");
      if Truthy(po) {
        var overrides := Index0(po);
        if Truthy(overrides) && |base.params| > 0 {
          base.params := base.params[0 := Assign(base.params[0], overrides)];
        }
      }
      if Truthy(Get(data, "valueTransform")) {
        valueTransform := Spread(Get(data, "valueTransform"));
      }
    }

    /** `addSubscriber(node, paramIndex)` */
    method AddSubscriber(node: D.NodeId, paramIndex: nat)
      modifies this`subscribers
      ensures subscribers == old(subscribers) + [Subscriber(node, paramIndex)]
    {
      subscribers := subscribers + [Subscriber(node, paramIndex)];
    }

    /** `removeSubscriber(node, paramIndex)` */
    method RemoveSubscriber(node: D.NodeId, paramIndex: nat)
      modifies this`subscribers
      ensures subscribers == Removed(old(subscribers), node, paramIndex)
    {
      subscribers := Removed(subscribers, node, paramIndex);
    }

    /** The state part of `onRemoved`: the constant source is gone; subscribers are kept. */
    method OnRemoved()
      modifies this`graph
      ensures !graph
    {
      graph := false;
    }
  }
}
